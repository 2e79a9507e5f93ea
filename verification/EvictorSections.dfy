/**
 What each critical section of EvictorI does to the state guarded by the evictor's lock,
 as functions from old state to new state. `E` is the type of element handles
 (EvictorElementPtr); the class in EvictorClass.dfy implements these functions in place.
 */
module EvictorSections {
  import opened EvictorTypes

  /** An entry of ObjectStore's cache map: being loaded by a thread, or an element. */
  datatype Slot<+E> = Placeholder(loader: nat) | Pinned(e: E)

  /**
   `list` is the evictor list, most recently used first; `size` the counter kept beside it;
   `queue` the modified queue; `waiters` the threads inside saveNow.
   */
  datatype Shared<E> = Shared(
    elems: map<E, Elem>,
    cache: map<Key, Slot<E>>,
    stores: set<string>,
    list: seq<E>,
    size: int,
    limit: nat,
    queue: seq<E>,
    waiters: seq<nat>)

  function With<E(==)>(sh: Shared<E>, e: E, x: Elem): Shared<E> {
    sh.(elems := sh.elems[e := x])
  }

  /** fixEvictPosition: move to the front; a first use turns the usage count from -1 to 0. */
  function Touch<E(==)>(sh: Shared<E>, e: E): Shared<E>
    requires e in sh.elems
  {
    var x := sh.elems[e];
    if x.keep != 0 then sh
    else if x.usage < 0 then With(sh, e, x.(usage := 0)).(list := [e] + sh.list, size := sh.size + 1)
    else sh.(list := [e] + Without(sh.list, e))
  }

  /** addToModifiedQueue: the queue owns one usage count per entry. */
  function Push<E(==)>(sh: Shared<E>, e: E): Shared<E>
    requires e in sh.elems
  {
    With(sh, e, sh.elems[e].(usage := sh.elems[e].usage + 1)).(queue := sh.queue + [e])
  }

  /** The section of addFacet that holds the evictor lock, on an element that is not stale. */
  function AddSection<E(==)>(sh: Shared<E>, e: E, servant: Servant): Shared<E>
    requires e in sh.elems
  {
    var t := Touch(sh, e);
    var x := t.elems[e];
    match x.status
    case Clean => t
    case Created => t
    case Modified => t
    case Destroyed => With(t, e, x.(status := Modified, servant := Some(servant)))
    case Dead => Push(With(t, e, x.(status := Created, servant := Some(servant))), e)
  }

  function CreateSection<E(==)>(sh: Shared<E>, e: E, servant: Servant): Shared<E>
    requires e in sh.elems
  {
    var t := Touch(sh, e);
    var x := t.elems[e];
    match x.status
    case Clean => Push(With(t, e, x.(status := Modified, servant := Some(servant))), e)
    case Created => With(t, e, x.(servant := Some(servant)))
    case Modified => With(t, e, x.(servant := Some(servant)))
    case Destroyed => With(t, e, x.(status := Modified, servant := Some(servant)))
    case Dead => Push(With(t, e, x.(status := Created, servant := Some(servant))), e)
  }

  /** removeFacet's switch over the status. */
  function Unregistered<E(==)>(sh: Shared<E>, e: E): Shared<E>
    requires e in sh.elems
  {
    var x := sh.elems[e];
    match x.status
    case Clean => Push(With(sh, e, x.(status := Destroyed, servant := None)), e)
    case Created => With(sh, e, x.(status := Dead, servant := None))
    case Modified => With(sh, e, x.(status := Destroyed, servant := None))
    case Destroyed => sh
    case Dead => sh
  }

  /** The part of removeFacet's section before the keep count. */
  function RemoveStatus<E(==)>(sh: Shared<E>, e: E): Shared<E>
    requires e in sh.elems
  {
    Unregistered(Touch(sh, e), e)
  }

  function RemoveSection<E(==)>(sh: Shared<E>, e: E): Shared<E>
    requires e in sh.elems
  {
    Unkept(RemoveStatus(sh, e), e)
  }

  /** The end of removeFacet's section: a kept element goes back to the list. */
  function Unkept<E(==)>(sh: Shared<E>, e: E): Shared<E>
    requires e in sh.elems
  {
    var x := sh.elems[e];
    if x.keep > 0 then With(sh, e, x.(keep := 0)).(list := [e] + sh.list, size := sh.size + 1) else sh
  }

  function KeepSection<E(==)>(sh: Shared<E>, e: E): Shared<E>
    requires e in sh.elems
  {
    var x := sh.elems[e];
    if !Present(x.status) then sh
    else if x.keep != 0 then With(sh, e, x.(keep := x.keep + 1))
    else if x.usage < 0 then With(sh, e, x.(usage := 0, keep := 1))
    else With(sh, e, x.(keep := 1)).(list := Without(sh.list, e), size := sh.size - 1)
  }

  /** The element getIfPinned finds, if any. */
  function IfPinned<E>(sh: Shared<E>, k: Key): Option<E> {
    if k in sh.cache && sh.cache[k].Pinned? then Some(sh.cache[k].e) else None
  }

  function ReleaseSection<E(==)>(sh: Shared<E>, e: E): Shared<E>
    requires e in sh.elems
  {
    var x := sh.elems[e];
    if x.keep <= 0 then sh
    else if x.keep == 1 then With(sh, e, x.(keep := 0)).(list := [e] + sh.list, size := sh.size + 1)
    else With(sh, e, x.(keep := x.keep - 1))
  }

  function LocateSection<E(==)>(sh: Shared<E>, e: E): Shared<E>
    requires e in sh.elems
  {
    if !Present(sh.elems[e].status) then sh
    else
      var t := Touch(sh, e);
      With(t, e, t.elems[e].(usage := t.elems[e].usage + 1))
  }

  /** The first section of finished, under the element mutex only. */
  function FinishFirst<E(==)>(sh: Shared<E>, e: E, mutating: bool): Shared<E>
    requires e in sh.elems
  {
    if mutating && sh.elems[e].status.Clean? then With(sh, e, sh.elems[e].(status := Modified)) else sh
  }

  /** One usage count is given back. */
  function Dropped<E(==)>(sh: Shared<E>, e: E): Shared<E>
    requires e in sh.elems
  {
    With(sh, e, sh.elems[e].(usage := sh.elems[e].usage - 1))
  }

  /** The second section of finished, under the evictor lock. */
  function FinishSecond<E(==)>(sh: Shared<E>, e: E, enqueue: bool): Shared<E>
    requires e in sh.elems && Listed(sh)
  {
    var t := Dropped(sh, e);
    if enqueue then Push(t, e)
    else if t.elems[e].usage == 0 && t.elems[e].keep == 0 then EvictIdle(t)
    else t
  }

  function SetSizeSection<E(==)>(sh: Shared<E>, n: int): Shared<E>
    requires Listed(sh)
  {
    if n < 0 then sh else EvictIdle(sh.(limit := n))
  }

  /** Listed elements have a record. */
  predicate Listed<E(==)>(sh: Shared<E>) {
    forall e | e in sh.list :: e in sh.elems
  }

  /** evict(element): unlink, mark stale, unpin. */
  function EvictOne<E(==)>(sh: Shared<E>, e: E): Shared<E>
    requires e in sh.elems
  {
    With(sh, e, sh.elems[e].(stale := true)).(
      cache := sh.cache - {sh.elems[e].key},
      list := Without(sh.list, e),
      size := sh.size - 1)
  }

  /** evict(): a reverse scan of the list, evicting idle elements until the size fits. */
  function EvictIdle<E(==)>(sh: Shared<E>): Shared<E>
    requires Listed(sh)
  {
    EvictScan(sh, |sh.list|)
  }

  /** The scan, with `p` entries at the front not yet looked at. */
  function EvictScan<E(==)>(sh: Shared<E>, p: nat): Shared<E>
    requires Listed(sh)
    decreases p
  {
    if sh.size <= sh.limit || p == 0 || p > |sh.list| then sh
    else if sh.elems[sh.list[p - 1]].usage == 0 then
      EvictScan(EvictOne(sh, sh.list[p - 1]), p - 1)
    else EvictScan(sh, p - 1)
  }

  /** The saving thread gives back one usage count per entry of its batch. */
  function ReleaseCounts<E(==)>(sh: Shared<E>, batch: seq<E>): Shared<E> {
    sh.(elems := map e | e in sh.elems :: sh.elems[e].(usage := sh.elems[e].usage - multiset(batch)[e]))
  }

  /** Unused dead elements are evicted; the queue of dead elements may hold duplicates. */
  function EvictDead<E(==)>(sh: Shared<E>, dead: seq<E>): Shared<E>
    requires forall e | e in dead :: e in sh.elems
    decreases |dead|
  {
    if dead == [] then sh
    else
      var e, x := dead[0], sh.elems[dead[0]];
      var t := if !x.stale && x.usage == 0 && x.keep == 0 && x.status.Dead? then EvictOne(sh, e) else sh;
      EvictDead(t, dead[1..])
  }

  /** The whole release phase of a saving round that started with `snap` waiters. */
  function ReleasePhase<E(==)>(sh: Shared<E>, batch: seq<E>, dead: seq<E>, snap: nat): Shared<E>
    requires Listed(sh) && snap <= |sh.waiters|
    requires forall e | e in dead :: e in sh.elems
  {
    var t := EvictDead(ReleaseCounts(sh, batch), dead);
    EvictDeadFrame(ReleaseCounts(sh, batch), dead);
    var u := EvictIdle(t);
    u.(waiters := sh.waiters[snap..])
  }

  /** A scan only evicts: queue, waiters, stores and limit are untouched, and no element appears or disappears. */
  lemma {:induction false} EvictScanFrame<E>(sh: Shared<E>, p: nat)
    requires Listed(sh)
    ensures EvictScan(sh, p).elems.Keys == sh.elems.Keys
    ensures forall e | e in EvictScan(sh, p).list :: e in sh.list
    ensures EvictScan(sh, p).(elems := sh.elems, cache := sh.cache, list := sh.list, size := sh.size) == sh
    decreases p
  {
    if sh.size <= sh.limit || p == 0 || p > |sh.list| {
    } else if sh.elems[sh.list[p - 1]].usage == 0 {
      EvictScanFrame(EvictOne(sh, sh.list[p - 1]), p - 1);
    } else {
      EvictScanFrame(sh, p - 1);
    }
  }

  lemma {:induction false} EvictDeadFrame<E>(sh: Shared<E>, dead: seq<E>)
    requires forall e | e in dead :: e in sh.elems
    ensures EvictDead(sh, dead).elems.Keys == sh.elems.Keys
    ensures forall e | e in EvictDead(sh, dead).list :: e in sh.list
    ensures EvictDead(sh, dead).(elems := sh.elems, cache := sh.cache, list := sh.list, size := sh.size) == sh
    decreases |dead|
  {
    if dead != [] {
      var e, x := dead[0], sh.elems[dead[0]];
      var t := if !x.stale && x.usage == 0 && x.keep == 0 && x.status.Dead? then EvictOne(sh, e) else sh;
      EvictDeadFrame(t, dead[1..]);
    }
  }
}
