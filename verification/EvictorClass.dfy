/**
 The evictor's critical sections as methods that update its fields in place. `Model()` is the
 value the sections of EvictorSections work on, and each method is proved to do to it what its
 section says. `Structural` is what the fields have to satisfy for the code to be meaningful:
 an element's place in the list exists exactly when the code erases or inserts there.
 */
module EvictorClass {
  import opened EvictorTypes
  import opened EvictorSections
  import opened EvictorStructure
  import EvictionOrder

  /** A locked section that pinned its element before it was evicted has to pin again. */
  datatype Answer<T> = Retry | Done(value: T)

  class EvictorElement {
    const key: Key
    var servant: Option<Servant>
    var status: Status
    var usageCount: int
    var keepCount: int
    var stale: bool

    /** A new element: not yet seen by a locked section, and stale until it is pinned. */
    constructor (key: Key, status: Status, servant: Option<Servant>)
      ensures Fields() == Elem(key, servant, status, -1, 0, true)
    {
      this.key, this.servant, this.status := key, servant, status;
      usageCount, keepCount, stale := -1, 0, true;
    }

    ghost function Fields(): Elem
      reads this
    {
      Elem(key, servant, status, usageCount, keepCount, stale)
    }
  }

  class Evictor {
    ghost var known: set<EvictorElement>
    var cache: map<Key, Slot<EvictorElement>>
    var stores: set<string>
    var evictorList: seq<EvictorElement>
    var currentEvictorSize: int
    var evictorSize: nat
    var modifiedQueue: seq<EvictorElement>
    var saveNowThreads: seq<nat>

    constructor (stores: set<string>, evictorSize: nat)
      ensures Valid() && known == {}
      ensures Model() == Shared(map[], map[], stores, [], 0, evictorSize, [], [])
    {
      known, cache, this.stores, evictorList, currentEvictorSize := {}, map[], stores, [], 0;
      this.evictorSize, modifiedQueue, saveNowThreads := evictorSize, [], [];
    }

    ghost function Model(): Shared<EvictorElement>
      reads this, known
    {
      Shared(map e | e in known :: e.Fields(), cache, stores, evictorList, currentEvictorSize,
             evictorSize, modifiedQueue, saveNowThreads)
    }

    ghost predicate Valid()
      reads this, known
    {
      Structural(Model())
    }

    /** Only `e` differs from `before`. */
    twostate lemma OneChanged(e: EvictorElement)
      requires known == old(known) && e in known && old(allocated(e))
      requires forall x | x in known && x != e :: x.Fields() == old(x.Fields())
      ensures Model().elems == old(Model()).elems[e := e.Fields()]
    {
    }

    /** What `Valid` says about one element. */
    lemma At(e: EvictorElement)
      requires Valid() && e in known
      ensures e in evictorList <==> !e.stale && e.usageCount >= 0 && e.keepCount == 0
      ensures e.keepCount > 0 ==> !e.stale && e.usageCount >= 0 && Present(e.status)
      ensures e.keepCount >= 0
    {
      assert ElementPlaced(Model(), e);
    }

    /** Most recently used: in front, with the other entries of `before` in their order. */
    ghost predicate InFront(e: EvictorElement, before: seq<EvictorElement>)
      reads this
    {
      evictorList == [e] + Without(before, e)
    }

    /** An element that has no place in the list leaves it as it is when it is taken out. */
    lemma Absent(e: EvictorElement)
      requires Valid() && e in known && (e.usageCount < 0 || e.keepCount > 0)
      ensures Without(evictorList, e) == evictorList
    {
      At(e);
      WithoutAbsent(evictorList, e);
    }

    /** Within the size, or with nothing on the list that could be evicted. */
    ghost predicate Fits()
      reads this, known
    {
      EvictionOrder.Fits(Model())
    }

    /** Erase the element's own place in the list. */
    method Erase(e: EvictorElement)
      requires e in evictorList && NoDup(evictorList)
      modifies this`evictorList
      ensures evictorList == Without(old(evictorList), e)
    {
      var i :| 0 <= i < |evictorList| && evictorList[i] == e;
      WithoutAt(evictorList, i);
      evictorList := evictorList[..i] + evictorList[i + 1..];
    }

    method FixEvictPosition(e: EvictorElement)
      requires Valid() && e in known && !e.stale
      modifies this`evictorList, this`currentEvictorSize, e`usageCount
      ensures Model() == Touch(old(Model()), e) && Valid()
      ensures if e.keepCount == 0 then InFront(e, old(evictorList)) else evictorList == old(evictorList)
    {
      At(e);
      if e.usageCount < 0 {
        Absent(e);
      }
      if e.keepCount == 0 {
        if e.usageCount < 0 {
          e.usageCount := 0;
          currentEvictorSize := currentEvictorSize + 1;
        } else {
          Erase(e);
        }
        evictorList := [e] + evictorList;
      }
      OneChanged(e);
      assert Model() == Touch(old(Model()), e);
      TouchStructural(old(Model()), e);
    }

    method AddToModifiedQueue(e: EvictorElement)
      requires e in known
      modifies this`modifiedQueue, e`usageCount
      ensures Model() == Push(old(Model()), e)
      ensures modifiedQueue == old(modifiedQueue) + [e] && e.usageCount == old(e.usageCount) + 1
    {
      e.usageCount := e.usageCount + 1;
      modifiedQueue := modifiedQueue + [e];
      OneChanged(e);
    }

    /** addFacet after putIfAbsent; false when it throws AlreadyRegisteredException. */
    method Add(e: EvictorElement, servant: Servant) returns (r: Answer<bool>)
      requires Valid() && e in known
      modifies this`evictorList, this`currentEvictorSize, this`modifiedQueue, e
      ensures Valid() && if old(e.stale) then r.Retry? && Model() == old(Model())
              else r == Done(!Present(old(e.status))) && Model() == AddSection(old(Model()), e, servant)
      ensures r.Done? && e.keepCount == 0 ==> InFront(e, old(evictorList))
    {
      if e.stale {
        return Retry;
      }
      ghost var sh := Model();
      FixEvictPosition(e);
      var ok := true;
      label touched:
      match e.status {
        case Clean => ok := false;
        case Created => ok := false;
        case Modified => ok := false;
        case Destroyed =>
          e.status, e.servant := Modified, Some(servant);
          OneChanged@touched(e);
        case Dead =>
          e.status, e.servant := Created, Some(servant);
          OneChanged@touched(e);
          AddToModifiedQueue(e);
      }
      assert Model() == AddSection(sh, e, servant);
      AddStructural(sh, e, servant);
      r := Done(ok);
    }

    /** createObject after putIfAbsent. */
    method CreateOrUpdate(e: EvictorElement, servant: Servant) returns (r: Answer<()>)
      requires Valid() && e in known
      modifies this`evictorList, this`currentEvictorSize, this`modifiedQueue, e
      ensures Valid() && if old(e.stale) then r.Retry? && Model() == old(Model())
              else r.Done? && Model() == CreateSection(old(Model()), e, servant)
      ensures r.Done? && e.keepCount == 0 ==> InFront(e, old(evictorList))
    {
      if e.stale {
        return Retry;
      }
      ghost var sh := Model();
      FixEvictPosition(e);
      label touched:
      match e.status {
        case Clean =>
          e.status, e.servant := Modified, Some(servant);
          OneChanged@touched(e);
          AddToModifiedQueue(e);
        case Created =>
          e.servant := Some(servant);
          OneChanged@touched(e);
        case Modified =>
          e.servant := Some(servant);
          OneChanged@touched(e);
        case Destroyed =>
          e.status, e.servant := Modified, Some(servant);
          OneChanged@touched(e);
        case Dead =>
          e.status, e.servant := Created, Some(servant);
          OneChanged@touched(e);
          AddToModifiedQueue(e);
      }
      assert Model() == CreateSection(sh, e, servant);
      CreateStructural(sh, e, servant);
      r := Done(());
    }

    /** removeFacet after pin; the removed servant, or None for NotRegisteredException. */
    method Remove(e: EvictorElement) returns (r: Answer<Option<Servant>>)
      requires Valid() && e in known
      modifies this`evictorList, this`currentEvictorSize, this`modifiedQueue, e
      ensures Valid() && if old(e.stale) then r.Retry? && Model() == old(Model())
              else r == Done(if Present(old(e.status)) then old(e.servant) else None) && Model() == RemoveSection(old(Model()), e)
      ensures r.Done? ==> InFront(e, old(evictorList)) && e.keepCount == 0
    {
      if e.stale {
        return Retry;
      }
      At(e);
      if e.keepCount > 0 {
        Absent(e);
      }
      RemoveStructural(Model(), e);
      var servant := RemoveServant(e);
      Unkeep(e);
      r := Done(servant);
    }

    method RemoveServant(e: EvictorElement) returns (servant: Option<Servant>)
      requires Valid() && e in known && !e.stale
      modifies this`evictorList, this`currentEvictorSize, this`modifiedQueue, e
      ensures Model() == RemoveStatus(old(Model()), e) && e.keepCount == old(e.keepCount)
      ensures servant == if Present(old(e.status)) then old(e.servant) else None
      ensures if e.keepCount == 0 then InFront(e, old(evictorList)) else evictorList == old(evictorList)
    {
      FixEvictPosition(e);
      servant := MarkRemoved(e);
    }

    /** Its switch over the status, after fixEvictPosition. */
    method MarkRemoved(e: EvictorElement) returns (servant: Option<Servant>)
      requires e in known
      modifies this`modifiedQueue, e`status, e`servant, e`usageCount
      ensures Model() == Unregistered(old(Model()), e)
      ensures servant == if Present(old(e.status)) then old(e.servant) else None
    {
      servant := None;
      match e.status {
        case Clean =>
          servant := e.servant;
          e.status, e.servant := Destroyed, None;
          OneChanged(e);
          AddToModifiedQueue(e);
        case Created =>
          servant := e.servant;
          e.status, e.servant := Dead, None;
          OneChanged(e);
        case Modified =>
          servant := e.servant;
          e.status, e.servant := Destroyed, None;
          OneChanged(e);
        case Destroyed =>
        case Dead =>
      }
    }

    /** The end of removeFacet: a kept element goes back to the list. */
    method Unkeep(e: EvictorElement)
      requires e in known && e.keepCount >= 0
      modifies this`evictorList, this`currentEvictorSize, e`keepCount
      ensures Model() == Unkept(old(Model()), e) && e.keepCount == 0
      ensures evictorList == if old(e.keepCount) > 0 then [e] + old(evictorList) else old(evictorList)
    {
      if e.keepCount > 0 {
        e.keepCount := 0;
        evictorList := [e] + evictorList;
        currentEvictorSize := currentEvictorSize + 1;
      }
      OneChanged(e);
    }

    /** keepFacet after pin; false for NotRegisteredException. */
    method Keep(e: EvictorElement) returns (r: Answer<bool>)
      requires Valid() && e in known
      modifies this`evictorList, this`currentEvictorSize, e
      ensures Valid() && if old(e.stale) then r.Retry? && Model() == old(Model())
              else r == Done(Present(old(e.status))) && Model() == KeepSection(old(Model()), e)
    {
      if e.stale {
        return Retry;
      }
      ghost var sh := Model();
      if e.status.Destroyed? || e.status.Dead? {
        return Done(false);
      }
      At(e);
      if e.keepCount == 0 {
        if e.usageCount < 0 {
          e.usageCount := 0;
        } else {
          Erase(e);
          currentEvictorSize := currentEvictorSize - 1;
        }
        e.keepCount := 1;
      } else {
        e.keepCount := e.keepCount + 1;
      }
      OneChanged(e);
      assert Model() == KeepSection(sh, e);
      KeepStructural(sh, e);
      r := Done(true);
    }

    /** getIfPinned. */
    function FindPinned(k: Key): (r: Option<EvictorElement>)
      reads this
    {
      if k in cache && cache[k].Pinned? then Some(cache[k].e) else None
    }

    /** releaseFacet; false for NotRegisteredException. */
    method Release(k: Key) returns (ok: bool)
      requires Valid()
      modifies this`evictorList, this`currentEvictorSize, known
      ensures FindPinned(k).None? ==> Model() == old(Model()) && !ok
      ensures FindPinned(k).Some? ==>
        var e := FindPinned(k).value;
        e in known && Model() == ReleaseSection(old(Model()), e) && ok == (old(e.keepCount) > 0)
        && (old(e.keepCount) == 1 ==> InFront(e, old(evictorList)))
      ensures known == old(known) && Valid()
    {
      ghost var sh := Model();
      ok := false;
      var found := FindPinned(k);
      if found.Some? {
        var e := found.value;
        PinnedKnown(sh, k);
        assert e in known;
        assert sh.elems[e] == e.Fields();
        assert !e.stale;
        if e.keepCount > 0 {
          Absent(e);
          e.keepCount := e.keepCount - 1;
          if e.keepCount == 0 {
            evictorList := [e] + evictorList;
            currentEvictorSize := currentEvictorSize + 1;
          }
          ok := true;
          OneChanged(e);
        }
        assert Model() == ReleaseSection(sh, e);
        ReleaseStructural(sh, e);
      }
    }

    /** locate after pin; the servant to dispatch to, or None. */
    method Locate(e: EvictorElement) returns (r: Answer<Option<Servant>>)
      requires Valid() && e in known
      requires Present(e.status) ==> e.servant.Some?
      modifies this`evictorList, this`currentEvictorSize, e
      ensures Valid() && if old(e.stale) then r.Retry? && Model() == old(Model())
              else r == Done(if Present(old(e.status)) then old(e.servant) else None) && Model() == LocateSection(old(Model()), e)
      ensures r.Done? && r.value.Some? && e.keepCount == 0 ==> InFront(e, old(evictorList)) && e.usageCount >= 1
    {
      if e.stale {
        return Retry;
      }
      ghost var sh := Model();
      if e.status.Destroyed? || e.status.Dead? {
        return Done(None);
      }
      FixEvictPosition(e);
      label touched:
      e.usageCount := e.usageCount + 1;
      OneChanged@touched(e);
      assert Model() == LocateSection(sh, e);
      LocateStructural(sh, e);
      assert e.servant.Some?;
      r := Done(e.servant);
    }

    /** finished, under the element's mutex. */
    method FinishedFirst(e: EvictorElement, mutating: bool) returns (enqueue: bool)
      requires Valid() && e in known && !e.stale
      modifies e`status
      ensures Model() == FinishFirst(old(Model()), e, mutating) && Valid()
      ensures enqueue == (mutating && old(e.status).Clean?)
    {
      enqueue := false;
      if mutating && e.status.Clean? {
        e.status := Modified;
        enqueue := true;
      }
      OneChanged(e);
      assert Model() == FinishFirst(old(Model()), e, mutating);
      FinishFirstStructural(old(Model()), e, mutating);
    }

    /** finished, under the evictor's lock. */
    method FinishedSecond(e: EvictorElement, enqueue: bool)
      requires Valid() && e in known && !e.stale && e.usageCount >= 1
      modifies this`evictorList, this`currentEvictorSize, this`modifiedQueue, this`cache, known
      ensures Model() == FinishSecond(old(Model()), e, enqueue) && known == old(known) && Valid()
      ensures e.usageCount == old(e.usageCount) - (if enqueue then 0 else 1) && e.keepCount == old(e.keepCount)
      ensures if enqueue then modifiedQueue == old(modifiedQueue) + [e]
              else modifiedQueue == old(modifiedQueue) && (e.usageCount == 0 && e.keepCount == 0 ==> Fits())
    {
      GiveBack(e);
      if enqueue {
        Enqueue(e);
      } else if e.usageCount == 0 && e.keepCount == 0 {
        Evict();
      }
    }

    method DropUsage(e: EvictorElement)
      requires e in known
      modifies e`usageCount
      ensures Model() == Dropped(old(Model()), e) && e.usageCount == old(e.usageCount) - 1
    {
      e.usageCount := e.usageCount - 1;
      OneChanged(e);
    }

    /** The cookie's usage count. */
    method GiveBack(e: EvictorElement)
      requires Valid() && e in known && !e.stale && e.usageCount >= 1
      modifies e`usageCount
      ensures Model() == Dropped(old(Model()), e) && Valid() && e.usageCount == old(e.usageCount) - 1
    {
      DropStructural(Model(), e);
      DropUsage(e);
    }

    method Enqueue(e: EvictorElement)
      requires Valid() && e in known && !e.stale && e.usageCount >= 0
      modifies this`modifiedQueue, e`usageCount
      ensures Model() == Push(old(Model()), e) && Valid()
    {
      PushStructural(Model(), e);
      AddToModifiedQueue(e);
    }

    method SetSize(n: int)
      requires Valid()
      modifies this`evictorSize, this`evictorList, this`currentEvictorSize, this`cache, known
      ensures Model() == SetSizeSection(old(Model()), n) && known == old(known) && Valid()
      ensures n >= 0 ==> evictorSize == n && Fits()
    {
      if n < 0 {
        return;
      }
      ghost var sh := Model();
      evictorSize := n;
      assert Model() == sh.(limit := n);
      LimitStructural(sh, n);
      Evict();
    }

    /** evict(element). */
    method EvictElement(e: EvictorElement)
      requires Valid() && e in known && e in evictorList
      modifies this`evictorList, this`currentEvictorSize, this`cache, e
      ensures Model() == EvictOne(old(Model()), e) && Valid()
    {
      At(e);
      assert !e.stale;
      assert e.keepCount == 0;
      Erase(e);
      currentEvictorSize := currentEvictorSize - 1;
      e.stale := true;
      cache := cache - {e.key};
      OneChanged(e);
      assert Model() == EvictOne(old(Model()), e);
      EvictOneStructural(old(Model()), e);
    }

    /** The reverse scan of evict() stands before `p` entries and will reach `goal`. */
    ghost predicate Heading(p: nat, goal: Shared<EvictorElement>)
      reads this, known
    {
      Valid() && p <= |evictorList| && EvictScan(Model(), p) == goal
    }

    /** The inner loop of evict(): skip the entries in use. `p` is the reverse iterator, as the number of entries in front of it. */
    method LastUnused(p: nat, ghost goal: Shared<EvictorElement>) returns (q: nat)
      requires Heading(p, goal) && currentEvictorSize > evictorSize
      ensures Heading(q, goal) && q <= p && (q != 0 ==> evictorList[q - 1].usageCount == 0)
      ensures forall i :: q <= i < p ==> evictorList[i].usageCount != 0
    {
      q := p;
      while q != 0
        invariant Heading(q, goal) && q <= p
        invariant forall i :: q <= i < p ==> evictorList[i].usageCount != 0
      {
        assert evictorList[q - 1] in evictorList;
        assert evictorList[q - 1] in Model().elems;
        if evictorList[q - 1].usageCount == 0 {
          break;
        }
        assert Model().elems[Model().list[q - 1]].usage != 0;
        q := q - 1;
      }
    }

    /** Evict the idle entry the iterator stands on. */
    method EvictAt(p: nat, ghost goal: Shared<EvictorElement>)
      requires Heading(p, goal) && 0 < p && currentEvictorSize > evictorSize
      requires evictorList[p - 1].usageCount == 0
      modifies this`evictorList, this`currentEvictorSize, this`cache, known
      ensures Heading(p - 1, goal) && known == old(known)
      ensures currentEvictorSize == old(currentEvictorSize) - 1
    {
      ghost var sh := Model();
      assert evictorList[p - 1] in sh.list;
      assert evictorList[p - 1] in sh.elems;
      assert sh.elems[sh.list[p - 1]].usage == 0;
      EvictElement(evictorList[p - 1]);
      WithoutAt(sh.list, p - 1);
    }

    /** evict(). */
    method Evict()
      requires Valid()
      modifies this`evictorList, this`currentEvictorSize, this`cache, known
      ensures Model() == EvictIdle(old(Model())) && known == old(known) && Valid()
      ensures Fits() && evictorSize == old(evictorSize) && modifiedQueue == old(modifiedQueue)
      ensures forall x | x in known :: x.Fields() == old(x.Fields()).(stale := x.stale)
    {
      ghost var sh := Model();
      EvictionOrder.ScanFits(sh);
      EvictScanFrame(sh, |sh.list|);
      assert currentEvictorSize == |evictorList|;
      var p := EvictFrom(|evictorList|, EvictScan(sh, |sh.list|));
      assert EvictScan(Model(), p) == Model();
      forall x | x in known ensures x.Fields() == old(x.Fields()).(stale := x.stale) {
        EvictionOrder.ScanEffect(sh, |sh.list|, x);
        assert Model().elems[x] == x.Fields() && sh.elems[x] == old(x.Fields());
      }
    }

    /** Its outer loop, from `start` entries before the iterator on. */
    method EvictFrom(start: nat, ghost goal: Shared<EvictorElement>) returns (p: nat)
      requires Heading(start, goal)
      modifies this`evictorList, this`currentEvictorSize, this`cache, known
      ensures Heading(p, goal) && known == old(known)
      ensures currentEvictorSize <= evictorSize || p == 0
    {
      p := start;
      while currentEvictorSize > evictorSize
        invariant Heading(p, goal) && known == old(known)
        decreases currentEvictorSize - evictorSize
      {
        p := LastUnused(p, goal);
        if p == 0 {
          break;
        }
        EvictAt(p, goal);
        p := p - 1;
      }
    }

    /** The saving thread gives back the usage counts of its batch. */
    method ReleaseUsage(allObjects: seq<EvictorElement>)
      requires forall e | e in allObjects :: e in known
      modifies known
      ensures known == old(known) && Model() == ReleaseCounts(old(Model()), allObjects)
    {
      ghost var sh := Model();
      var i := 0;
      CountsOfNone(sh);
      while i < |allObjects|
        invariant i <= |allObjects| && known == old(known)
        invariant Model() == ReleaseCounts(sh, allObjects[..i])
      {
        CountsOfOne(sh, allObjects, i);
        DropUsage(allObjects[i]);
        i := i + 1;
      }
      assert allObjects[..i] == allObjects;
    }

    /** Unused dead elements go; the queue of dead elements may hold one twice. */
    method EvictDeadObjects(deadObjects: seq<EvictorElement>)
      requires Valid() && forall e | e in deadObjects :: e in known
      modifies this`evictorList, this`currentEvictorSize, this`cache, known
      ensures known == old(known) && Valid() && Model() == EvictDead(old(Model()), deadObjects)
    {
      var i := 0;
      ghost var goal := EvictDead(Model(), deadObjects);
      assert deadObjects[0..] == deadObjects;
      while i < |deadObjects|
        invariant i <= |deadObjects| && known == old(known) && Valid()
        invariant EvictDead(Model(), deadObjects[i..]) == goal
      {
        var e := deadObjects[i];
        assert deadObjects[i..][1..] == deadObjects[i + 1..];
        At(e);
        assert Model().elems[e] == e.Fields();
        if !e.stale && e.usageCount == 0 && e.keepCount == 0 && e.status.Dead? {
          EvictElement(e);
        }
        i := i + 1;
      }
    }

    /** The section of run() after the commits: release, evict, and wake the saveNow threads of this round. */
    method ReleaseRound(allObjects: seq<EvictorElement>, deadObjects: seq<EvictorElement>, saveNowThreadsSize: nat)
      requires Valid() && saveNowThreadsSize <= |saveNowThreads|
      requires forall e | e in allObjects :: e in known && !e.stale && e.usageCount >= multiset(allObjects)[e]
      requires forall e | e in deadObjects :: e in known
      modifies this`evictorList, this`currentEvictorSize, this`cache, this`saveNowThreads, known
      ensures known == old(known) && Valid()
      ensures Model() == ReleasePhase(old(Model()), allObjects, deadObjects, saveNowThreadsSize)
      ensures Fits() && saveNowThreads == old(saveNowThreads)[saveNowThreadsSize..]
    {
      ghost var sh := Model();
      CountsStructural(sh, allObjects);
      ReleaseUsage(allObjects);
      ghost var counted := Model();
      EvictDeadObjects(deadObjects);
      EvictDeadFrame(counted, deadObjects);
      ghost var swept := Model();
      Evict();
      EvictScanFrame(swept, |swept.list|);
      WaitersStructural(Model(), saveNowThreads[saveNowThreadsSize..]);
      WakeFirst(saveNowThreadsSize);
    }

    /** The first `n` threads waiting in saveNow may return. */
    method WakeFirst(n: nat)
      requires n <= |saveNowThreads|
      modifies this`saveNowThreads
      ensures Model() == old(Model()).(waiters := old(saveNowThreads)[n..])
    {
      if n > 0 {
        saveNowThreads := saveNowThreads[n..];
      }
    }

    /** pin or putIfAbsent installing `e` for its key. */
    method Pinned(e: EvictorElement)
      requires Valid() && e !in known && FindPinned(e.key).None? && e.usageCount == -1 && e.keepCount == 0
      modifies this`known, this`cache, e`stale
      ensures known == old(known) + {e} && Valid()
      ensures var sh := old(Model());
        Model() == sh.(elems := sh.elems[e := old(e.Fields()).(stale := false)], cache := sh.cache[e.key := Slot<EvictorElement>.Pinned(e)])
    {
      ghost var sh := Model();
      e.stale := false;
      cache := cache[e.key := Slot<EvictorElement>.Pinned(e)];
      known := known + {e};
      assert Model().elems == sh.elems[e := e.Fields()];
      InstallStructural(sh, e, e.Fields());
    }
  }
}
