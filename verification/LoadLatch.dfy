/**
 IceUtil::Cache: how threads that pin the same key agree on one of them to load it, without a
 lock held during the load. The evictor model takes this protocol as atomic; here it is in full.
 `L` is the type of latch handles; a handle may be used again once its latch is freed.
 */
module LoadLatch {
  import opened EvictorTypes

  /** CacheValue. No object means that a thread is loading it. */
  datatype Entry<V, L> = Entry(obj: Option<V>, latch: Option<L>)

  datatype Latch = Latch(count: int, useCount: int)

  /** The map and the latches that are allocated. */
  datatype Cache<K(==), V, L(==)> = Cache(slots: map<K, Entry<V, L>>, latches: map<L, Latch>)

  /** How pinImpl ended: an object, null, or the exception of load. */
  datatype Result<V> = Found(obj: V) | Null | Threw

  /** Where a thread is in pinImpl. */
  datatype Pc<K, V, L> =
    | Idle
    | Entering(key: K, newObj: Option<V>, left: Option<L>)        // about to take the mutex; `left` is the latch of the previous loop
    | Awaiting(key: K, newObj: Option<V>, latch: L)
    | Loading(key: K, newObj: Option<V>)
    | Loaded(key: K, newObj: Option<V>, obj: Option<V>)
    | Failing(key: K)                                            // load threw
    | Counting(latch: L, result: Result<V>)                      // done, about to count the latch down

  datatype Machine<K(==), V, L(==)> = Machine(cache: Cache<K, V, L>, threads: map<nat, Pc<K, V, L>>)

  datatype Step<K, V, L> =
    | Call(t: nat, key: K, newObj: Option<V>)
    | Enter(t: nat, cell: L)
    | Await(t: nat)
    | Load(t: nat, obj: Option<V>)
    | LoadThrows(t: nat)
    | Fail(t: nat)
    | Install(t: nat)
    | CountDown(t: nat)
    | Unpin(t: nat, key: K)

  /****** The critical sections ******/

  /** A waiter drops its latch; the last one frees it. */
  ghost function Drop<K, V, L>(c: Cache<K, V, L>, left: Option<L>): Cache<K, V, L>
    requires left.Some? ==> left.value in c.latches
  {
    match left
    case None => c
    case Some(l) =>
      var n := c.latches[l].useCount - 1;
      if n == 0 then c.(latches := c.latches - {l})
      else c.(latches := c.latches[l := c.latches[l].(useCount := n)])
  }

  /** Insert the placeholder of a key that has no entry. */
  ghost function Reserve<K, V, L>(c: Cache<K, V, L>, k: K): Cache<K, V, L> {
    c.(slots := c.slots[k := Entry(None, None)])
  }

  /** Register as a waiter of an entry that is being loaded; the first one creates the latch. */
  ghost function Register<K, V, L>(c: Cache<K, V, L>, k: K, cell: L): (Cache<K, V, L>, L)
    requires k in c.slots && (c.slots[k].latch.Some? ==> c.slots[k].latch.value in c.latches)
  {
    match c.slots[k].latch
    case None =>
      (Cache(c.slots[k := c.slots[k].(latch := Some(cell))], c.latches[cell := Latch(1, 1)]), cell)
    case Some(l) =>
      (c.(latches := c.latches[l := c.latches[l].(useCount := c.latches[l].useCount + 1)]), l)
  }

  /** The object to leave in the entry after a load. */
  ghost function Kept<V>(obj: Option<V>, newObj: Option<V>): Option<V> {
    if obj.Some? then obj else newObj
  }

  /** After the load: publish the object, or withdraw the placeholder. */
  ghost function Publish<K, V, L>(c: Cache<K, V, L>, k: K, v: Option<V>): Cache<K, V, L> {
    match v
    case None => c.(slots := c.slots - {k})
    case Some(_) => c.(slots := c.slots[k := Entry(v, None)])
  }

  ghost function ResultOf<V>(obj: Option<V>): Result<V> {
    match obj case None => Null case Some(v) => Found(v)
  }

  /****** The machine ******/

  ghost function PcOf<K, V, L>(s: Machine<K, V, L>, t: nat): Pc<K, V, L> {
    if t in s.threads then s.threads[t] else Idle
  }

  ghost function Move<K, V, L>(s: Machine<K, V, L>, c: Cache<K, V, L>, t: nat, pc: Pc<K, V, L>): Machine<K, V, L> {
    Machine(c, s.threads[t := pc])
  }

  ghost predicate Enabled<K, V, L>(s: Machine<K, V, L>, a: Step<K, V, L>) {
    var c, pc := s.cache, PcOf(s, a.t);
    match a
    case Call(t, k, v) => pc.Idle?
    case Enter(t, cell) =>
      && pc.Entering? && (pc.left.Some? ==> pc.left.value in c.latches)
      && cell !in c.latches
      && (pc.key in c.slots && c.slots[pc.key].latch.Some? ==> c.slots[pc.key].latch.value in Drop(c, pc.left).latches)
    case Await(t) => pc.Awaiting? && pc.latch in c.latches && c.latches[pc.latch].count == 0
    case Load(t, obj) => pc.Loading?
    case LoadThrows(t) => pc.Loading?
    case Fail(t) => pc.Failing? && pc.key in c.slots
    case Install(t) => pc.Loaded? && pc.key in c.slots
    case CountDown(t) => pc.Counting? && pc.latch in c.latches
    case Unpin(t, k) => pc.Idle? && k in c.slots && c.slots[k].obj.Some?
  }

  /** Leave pinImpl with `r`, by way of the latch if somebody is waiting on it. */
  ghost function Leave<K, V, L>(latch: Option<L>, r: Result<V>): Pc<K, V, L> {
    match latch case None => Idle case Some(l) => Counting(l, r)
  }

  ghost function EnterStep<K, V, L>(s: Machine<K, V, L>, t: nat, cell: L): Machine<K, V, L>
    requires Enabled(s, Enter(t, cell))
  {
    var pc := PcOf(s, t);
    var c := Drop(s.cache, pc.left);
    if pc.key !in c.slots then Move(s, Reserve(c, pc.key), t, Loading(pc.key, pc.newObj))
    else if c.slots[pc.key].obj.Some? then Move(s, c, t, Idle)
    else
      var (d, l) := Register(c, pc.key, cell);
      Move(s, d, t, Awaiting(pc.key, pc.newObj, l))
  }

  ghost function Apply<K, V, L>(s: Machine<K, V, L>, a: Step<K, V, L>): Machine<K, V, L>
    requires Enabled(s, a)
  {
    var c, pc := s.cache, PcOf(s, a.t);
    match a
    case Call(t, k, v) => Move(s, c, t, Entering(k, v, None))
    case Enter(t, cell) => EnterStep(s, t, cell)
    case Await(t) => Move(s, c, t, Entering(pc.key, pc.newObj, Some(pc.latch)))
    case Load(t, obj) => Move(s, c, t, Loaded(pc.key, pc.newObj, obj))
    case LoadThrows(t) => Move(s, c, t, Failing(pc.key))
    case Fail(t) => Move(s, Publish(c, pc.key, None), t, Leave(c.slots[pc.key].latch, Threw))
    case Install(t) =>
      Move(s, Publish(c, pc.key, Kept(pc.obj, pc.newObj)), t, Leave(c.slots[pc.key].latch, ResultOf(pc.obj)))
    case CountDown(t) =>
      Move(s, c.(latches := c.latches[pc.latch := c.latches[pc.latch].(count := c.latches[pc.latch].count - 1)]), t, Idle)
    case Unpin(t, k) => s.(cache := c.(slots := c.slots - {k}))
  }

  /****** The invariant ******/

  ghost predicate IsLoader<K, V, L>(pc: Pc<K, V, L>, k: K) {
    (pc.Loading? || pc.Loaded? || pc.Failing?) && pc.key == k
  }

  ghost predicate LoaderOf<K, V, L>(s: Machine<K, V, L>, k: K, t: nat) {
    t in s.threads && IsLoader(s.threads[t], k)
  }

  /** Registered waiters of `l`, from the section that registers them to the section that drops the latch. */
  ghost predicate Holds<K, V, L>(pc: Pc<K, V, L>, l: L) {
    (pc.Awaiting? && pc.latch == l) || (pc.Entering? && pc.left == Some(l))
  }

  ghost function Waiters<K, V, L>(threads: map<nat, Pc<K, V, L>>, l: L): set<nat> {
    set t | t in threads && Holds(threads[t], l)
  }

  /** `l` hangs on the entry of `k`. */
  ghost predicate HangsOn<K, V, L>(s: Machine<K, V, L>, k: K, l: L) {
    k in s.cache.slots && s.cache.slots[k].latch == Some(l)
  }

  /** Thread `t` has taken `l` off its entry and is about to count it down. */
  ghost predicate InHand<K, V, L>(s: Machine<K, V, L>, t: nat, l: L) {
    t in s.threads && s.threads[t].Counting? && s.threads[t].latch == l
  }

  ghost predicate BeingLoaded<K, V, L>(s: Machine<K, V, L>, k: K) {
    exists t :: LoaderOf(s, k, t)
  }

  /** Somebody will count `l` down: it hangs on an entry, or a thread has it in hand. */
  ghost predicate Closed<K, V, L>(s: Machine<K, V, L>, l: L) {
    (exists k :: k in s.cache.slots && HangsOn(s, k, l)) || (exists t :: InHand(s, t, l))
  }

  /** A placeholder exists exactly while one thread is loading its key. */
  ghost predicate EntryOK<K, V, L>(s: Machine<K, V, L>, k: K)
    requires k in s.cache.slots
  {
    var e := s.cache.slots[k];
    && (e.obj.None? <==> BeingLoaded(s, k))
    && (e.obj.Some? ==> e.latch.None?)
    && (e.latch.Some? ==> e.latch.value in s.cache.latches)
  }

  /** A closed latch is where exactly one thread will find it; an open one is nowhere; its use count is its registered waiters. */
  ghost predicate LatchOK<K, V, L>(s: Machine<K, V, L>, l: L)
    requires l in s.cache.latches
  {
    var x := s.cache.latches[l];
    && x.count == (if Closed(s, l) then 1 else 0)
    && x.useCount == |Waiters(s.threads, l)| && x.useCount >= 1
  }

  ghost predicate ThreadOK<K, V, L>(s: Machine<K, V, L>, pc: Pc<K, V, L>) {
    && (pc.Loading? || pc.Loaded? || pc.Failing? ==> pc.key in s.cache.slots)
    && (pc.Awaiting? || pc.Counting? ==> pc.latch in s.cache.latches)
    && (pc.Entering? && pc.left.Some? ==> pc.left.value in s.cache.latches && s.cache.latches[pc.left.value].count == 0)
  }

  ghost predicate OneOwner<K, V, L>(s: Machine<K, V, L>) {
    && (forall k, t, u | k in s.cache.slots && LoaderOf(s, k, t) && LoaderOf(s, k, u) :: t == u)
    && (forall j, k, l | j in s.cache.slots && k in s.cache.slots && l in s.cache.latches && HangsOn(s, j, l) && HangsOn(s, k, l) :: j == k)
    && (forall t, u, l | l in s.cache.latches && InHand(s, t, l) && InHand(s, u, l) :: t == u)
    && (forall k, t, l | k in s.cache.slots && l in s.cache.latches && HangsOn(s, k, l) :: !InHand(s, t, l))
  }

  ghost predicate Inv<K, V, L>(s: Machine<K, V, L>) {
    && (forall k {:trigger EntryOK(s, k)} :: k in s.cache.slots ==> EntryOK(s, k))
    && (forall l {:trigger LatchOK(s, l)} :: l in s.cache.latches ==> LatchOK(s, l))
    && (forall t :: t in s.threads ==> ThreadOK(s, s.threads[t]))
    && OneOwner(s)
  }

  ghost predicate Init<K, V, L>(s: Machine<K, V, L>) {
    s == Machine(Cache(map[], map[]), map[])
  }

  /****** Preservation ******/

  lemma WaitersAfter<K, V, L>(threads: map<nat, Pc<K, V, L>>, t: nat, pc: Pc<K, V, L>, l: L)
    ensures |Waiters(threads[t := pc], l)|
            == |Waiters(threads, l)|
               - (if t in threads && Holds(threads[t], l) then 1 else 0)
               + (if Holds(pc, l) then 1 else 0)
  {
    var a := Waiters(threads, l);
    var b := Waiters(threads[t := pc], l);
    if Holds(pc, l) {
      assert b == a + {t};
    } else {
      assert b == a - {t};
    }
  }

  /** The thread moves without the cache; it loads and holds what it did before, and has no latch in hand. */
  lemma QuietMove<K, V, L>(s: Machine<K, V, L>, t: nat, pc: Pc<K, V, L>)
    requires Inv(s) && ThreadOK(s, pc) && !pc.Counting? && !PcOf(s, t).Counting?
    requires forall k :: IsLoader(pc, k) == IsLoader(PcOf(s, t), k)
    requires forall l :: Holds(pc, l) == Holds(PcOf(s, t), l)
    ensures Inv(Move(s, s.cache, t, pc))
  {
    var s' := Move(s, s.cache, t, pc);
    forall k, l ensures HangsOn(s', k, l) == HangsOn(s, k, l) {
    }
    forall k, u ensures LoaderOf(s', k, u) == LoaderOf(s, k, u) {
    }
    forall l, u ensures InHand(s', u, l) == InHand(s, u, l) {
    }
    forall k | k in s'.cache.slots ensures EntryOK(s', k) {
      assert EntryOK(s, k);
      assert BeingLoaded(s', k) == BeingLoaded(s, k);
    }
    forall l | l in s'.cache.latches ensures LatchOK(s', l) {
      assert LatchOK(s, l);
      WaitersAfter(s.threads, t, pc, l);
      ClosedSame(s, s', l);
    }
  }

  /** A waiter that has been woken drops its latch. */
  lemma DropInv<K, V, L>(s: Machine<K, V, L>, t: nat)
    requires Inv(s) && PcOf(s, t).Entering? && PcOf(s, t).left.Some?
    ensures PcOf(s, t).left.value in s.cache.latches
    ensures Inv(Move(s, Drop(s.cache, PcOf(s, t).left), t, PcOf(s, t).(left := None)))
  {
    var pc := PcOf(s, t);
    var gone := pc.left.value;
    assert ThreadOK(s, pc);
    var s' := Move(s, Drop(s.cache, pc.left), t, pc.(left := None));
    forall k, u ensures LoaderOf(s', k, u) == LoaderOf(s, k, u) {
    }
    forall l, u ensures InHand(s', u, l) == InHand(s, u, l) {
    }
    assert forall k, l :: HangsOn(s', k, l) == HangsOn(s, k, l);
    assert LatchOK(s, gone) && !Closed(s, gone);
    forall k | k in s'.cache.slots ensures EntryOK(s', k) {
      assert EntryOK(s, k);
      assert BeingLoaded(s', k) == BeingLoaded(s, k);
      assert HangsOn(s, k, gone) ==> false;
    }
    forall l | l in s'.cache.latches ensures LatchOK(s', l) {
      assert LatchOK(s, l);
      WaitersAfter(s.threads, t, pc.(left := None), l);
      assert Closed(s', l) == Closed(s, l);
    }
    forall u | u in s'.threads ensures ThreadOK(s', s'.threads[u]) {
      assert u != t ==> ThreadOK(s, s.threads[u]);
      if u != t && Holds(s.threads[u], gone) {
        OtherWaiter(s.threads, t, u, gone);
      }
      if u != t && InHand(s, u, gone) {
        assert false;
      }
    }
  }

  /** A latch with another registered waiter is not freed. */
  lemma OtherWaiter<K, V, L>(threads: map<nat, Pc<K, V, L>>, t: nat, u: nat, l: L)
    requires t in threads && u in threads && t != u && Holds(threads[t], l) && Holds(threads[u], l)
    ensures |Waiters(threads, l)| >= 2
  {
    assert {t, u} <= Waiters(threads, l);
    CardinalityMonotone({t, u}, Waiters(threads, l));
  }

  lemma CardinalityMonotone<T>(a: set<T>, b: set<T>)
    requires a <= b
    ensures |a| <= |b|
  {
    assert b == a + (b - a);
  }

  /** The thread becomes the one loader of a key that had no entry. */
  lemma ReserveInv<K, V, L>(s: Machine<K, V, L>, t: nat)
    requires Inv(s) && PcOf(s, t).Entering? && PcOf(s, t).left.None? && PcOf(s, t).key !in s.cache.slots
    ensures Inv(Move(s, Reserve(s.cache, PcOf(s, t).key), t, Loading(PcOf(s, t).key, PcOf(s, t).newObj)))
  {
    var pc := PcOf(s, t);
    var s' := Move(s, Reserve(s.cache, pc.key), t, Loading(pc.key, pc.newObj));
    assert forall u :: !LoaderOf(s, pc.key, u) by {
      forall u ensures !LoaderOf(s, pc.key, u) {
        assert u in s.threads ==> ThreadOK(s, s.threads[u]);
      }
    }
    forall k, u ensures LoaderOf(s', k, u) == (LoaderOf(s, k, u) || (k == pc.key && u == t)) {
    }
    forall l, u ensures InHand(s', u, l) == InHand(s, u, l) {
    }
    assert forall k, l :: HangsOn(s', k, l) == HangsOn(s, k, l);
    assert LoaderOf(s', pc.key, t);
    forall k | k in s'.cache.slots ensures EntryOK(s', k) {
      if k != pc.key {
        assert EntryOK(s, k);
        assert BeingLoaded(s', k) == BeingLoaded(s, k);
      }
    }
    forall l | l in s'.cache.latches ensures LatchOK(s', l) {
      assert LatchOK(s, l);
      WaitersAfter(s.threads, t, Loading(pc.key, pc.newObj), l);
      ClosedSame(s, s', l);
    }
    forall u | u in s'.threads ensures ThreadOK(s', s'.threads[u]) {
      assert u != t ==> ThreadOK(s, s.threads[u]);
    }
  }

  lemma ClosedSame<K, V, L>(s: Machine<K, V, L>, s': Machine<K, V, L>, l: L)
    requires forall k :: HangsOn(s', k, l) == HangsOn(s, k, l)
    requires forall u :: InHand(s', u, l) == InHand(s, u, l)
    ensures Closed(s', l) == Closed(s, l)
  {
    if Closed(s, l) && !(exists u :: InHand(s, u, l)) {
      var k :| HangsOn(s, k, l);
      assert HangsOn(s', k, l);
    }
    if Closed(s', l) && !(exists u :: InHand(s', u, l)) {
      var k :| HangsOn(s', k, l);
      assert HangsOn(s, k, l);
    }
  }

  /** The thread becomes a registered waiter of the entry's latch. */
  lemma RegisterInv<K, V, L>(s: Machine<K, V, L>, t: nat, cell: L)
    requires Inv(s) && PcOf(s, t).Entering? && PcOf(s, t).left.None? && cell !in s.cache.latches
    requires PcOf(s, t).key in s.cache.slots && s.cache.slots[PcOf(s, t).key].obj.None?
    ensures s.cache.slots[PcOf(s, t).key].latch.Some? ==> s.cache.slots[PcOf(s, t).key].latch.value in s.cache.latches
    ensures var (d, l) := Register(s.cache, PcOf(s, t).key, cell);
      Inv(Move(s, d, t, Awaiting(PcOf(s, t).key, PcOf(s, t).newObj, l)))
  {
    var pc := PcOf(s, t);
    assert EntryOK(s, pc.key);
    var (d, mine) := Register(s.cache, pc.key, cell);
    var s' := Move(s, d, t, Awaiting(pc.key, pc.newObj, mine));
    forall k, u ensures LoaderOf(s', k, u) == LoaderOf(s, k, u) {
    }
    forall l, u ensures InHand(s', u, l) == InHand(s, u, l) {
    }
    forall k, l ensures HangsOn(s', k, l) == (HangsOn(s, k, l) || (k == pc.key && l == mine)) {
    }
    assert HangsOn(s', pc.key, mine);
    assert forall k :: HangsOn(s, k, mine) ==> k == pc.key by { NewHangs(s, pc.key, cell); }
    assert forall u :: !InHand(s, u, mine) by { NewHangs(s, pc.key, cell); }
    forall k | k in s'.cache.slots ensures EntryOK(s', k) {
      assert EntryOK(s, k);
      assert BeingLoaded(s', k) == BeingLoaded(s, k);
    }
    forall l | l in s'.cache.latches ensures LatchOK(s', l) {
      WaitersAfter(s.threads, t, Awaiting(pc.key, pc.newObj, mine), l);
      if l in s.cache.latches {
        assert LatchOK(s, l);
        if l != mine { ClosedSame(s, s', l); }
      } else {
        NoWaiters(s, l);
      }
    }
    forall u | u in s'.threads ensures ThreadOK(s', s'.threads[u]) {
      assert u != t ==> ThreadOK(s, s.threads[u]);
    }
  }

  /** Whoever registers on `k` shares its latch with no other entry and no thread that counts it down. */
  lemma NewHangs<K, V, L>(s: Machine<K, V, L>, k: K, cell: L)
    requires Inv(s) && k in s.cache.slots && cell !in s.cache.latches
    ensures var l := if s.cache.slots[k].latch.Some? then s.cache.slots[k].latch.value else cell;
      && (forall j :: HangsOn(s, j, l) ==> j == k)
      && (forall u :: !InHand(s, u, l))
      && (s.cache.slots[k].latch.Some? ==> l in s.cache.latches && l != cell)
  {
    var l := if s.cache.slots[k].latch.Some? then s.cache.slots[k].latch.value else cell;
    assert EntryOK(s, k);
    forall j | HangsOn(s, j, l) ensures j == k {
      assert EntryOK(s, j);
      assert s.cache.slots[k].latch.Some? ==> HangsOn(s, k, l);
    }
    forall u ensures !InHand(s, u, l) {
      assert u in s.threads ==> ThreadOK(s, s.threads[u]);
      assert s.cache.slots[k].latch.Some? ==> HangsOn(s, k, l);
    }
  }

  lemma NoWaiters<K, V, L>(s: Machine<K, V, L>, l: L)
    requires Inv(s) && l !in s.cache.latches
    ensures Waiters(s.threads, l) == {}
  {
    forall u ensures u !in Waiters(s.threads, l) {
      assert u in s.threads ==> ThreadOK(s, s.threads[u]);
    }
  }

  /** The loader ends its load: the latch, if there is one, goes from the entry to its hand. */
  lemma PublishInv<K, V, L>(s: Machine<K, V, L>, t: nat, k: K, v: Option<V>, r: Result<V>)
    requires Inv(s) && LoaderOf(s, k, t) && k in s.cache.slots
    ensures Inv(Move(s, Publish(s.cache, k, v), t, Leave(s.cache.slots[k].latch, r)))
  {
    var latch := s.cache.slots[k].latch;
    var pc := Leave(latch, r);
    var s' := Move(s, Publish(s.cache, k, v), t, pc);
    assert EntryOK(s, k);
    forall j, u | j != k ensures LoaderOf(s', j, u) == LoaderOf(s, j, u) {
    }
    forall u ensures !LoaderOf(s', k, u) {
      assert u != t && u in s.threads ==> !(LoaderOf(s, k, t) && LoaderOf(s, k, u));
    }
    forall l, u ensures InHand(s', u, l) == (InHand(s, u, l) || (u == t && latch == Some(l))) {
    }
    forall j, l ensures HangsOn(s', j, l) == (HangsOn(s, j, l) && j != k) {
    }
    forall j | j in s'.cache.slots ensures EntryOK(s', j) {
      if j != k {
        assert EntryOK(s, j);
        assert BeingLoaded(s', j) == BeingLoaded(s, j);
      }
    }
    forall l | l in s'.cache.latches ensures LatchOK(s', l) {
      assert LatchOK(s, l);
      WaitersAfter(s.threads, t, pc, l);
      if latch == Some(l) {
        assert HangsOn(s, k, l) && InHand(s', t, l);
      } else {
        ClosedSame(s, s', l);
      }
    }
    forall u | u in s'.threads ensures ThreadOK(s', s'.threads[u]) {
      assert u != t ==> ThreadOK(s, s.threads[u]);
      if u != t && IsLoader(s.threads[u], k) {
        assert LoaderOf(s, k, u) && LoaderOf(s, k, t);
      }
    }
    assert latch.Some? ==> HangsOn(s, k, latch.value);
  }

  lemma CountDownInv<K, V, L>(s: Machine<K, V, L>, t: nat)
    requires Inv(s) && PcOf(s, t).Counting?
    ensures Enabled(s, CountDown(t)) && s.cache.latches[PcOf(s, t).latch].count == 1
    ensures Inv(Apply(s, CountDown(t)))
  {
    var mine := PcOf(s, t).latch;
    assert ThreadOK(s, s.threads[t]);
    assert InHand(s, t, mine) && LatchOK(s, mine);
    var s' := Apply(s, CountDown(t));
    forall k, u ensures LoaderOf(s', k, u) == LoaderOf(s, k, u) {
    }
    forall l, u ensures InHand(s', u, l) == (InHand(s, u, l) && u != t) {
    }
    assert forall k, l :: HangsOn(s', k, l) == HangsOn(s, k, l);
    forall k | k in s'.cache.slots ensures EntryOK(s', k) {
      assert EntryOK(s, k);
      assert BeingLoaded(s', k) == BeingLoaded(s, k);
    }
    forall l | l in s'.cache.latches ensures LatchOK(s', l) {
      assert LatchOK(s, l);
      WaitersAfter(s.threads, t, Idle, l);
      if l != mine { ClosedSame(s, s', l); }
    }
    forall u | u in s'.threads ensures ThreadOK(s', s'.threads[u]) {
      assert u != t ==> ThreadOK(s, s.threads[u]);
    }
  }

  lemma UnpinInv<K, V, L>(s: Machine<K, V, L>, t: nat, gone: K)
    requires Inv(s) && Enabled(s, Unpin(t, gone))
    ensures Inv(Apply(s, Unpin(t, gone)))
  {
    var s' := Apply(s, Unpin(t, gone));
    assert EntryOK(s, gone);
    forall k, u ensures LoaderOf(s', k, u) == LoaderOf(s, k, u) {
    }
    forall l, u ensures InHand(s', u, l) == InHand(s, u, l) {
    }
    assert forall k, l :: HangsOn(s', k, l) == HangsOn(s, k, l);
    forall k | k in s'.cache.slots ensures EntryOK(s', k) {
      assert EntryOK(s, k);
      assert BeingLoaded(s', k) == BeingLoaded(s, k);
    }
    forall l | l in s'.cache.latches ensures LatchOK(s', l) {
      assert LatchOK(s, l);
      ClosedSame(s, s', l);
    }
    forall u | u in s'.threads ensures ThreadOK(s', s'.threads[u]) {
      assert ThreadOK(s, s.threads[u]);
      assert !LoaderOf(s, gone, u);
    }
  }

  lemma EnterInv<K, V, L>(s: Machine<K, V, L>, t: nat, cell: L)
    requires Inv(s) && Enabled(s, Enter(t, cell))
    ensures Inv(Apply(s, Enter(t, cell)))
  {
    var pc := PcOf(s, t);
    var s1 := Move(s, Drop(s.cache, pc.left), t, pc.(left := None));
    assert Inv(s1) by {
      if pc.left.Some? { DropInv(s, t); } else { assert s1 == s; }
    }
    assert EnterStep(s1, t, cell) == EnterStep(s, t, cell) by {
      var next := EnterStep(s, t, cell).threads[t];
      assert s.threads[t := pc.(left := None)][t := next] == s.threads[t := next];
    }
    if pc.key !in s1.cache.slots {
      ReserveInv(s1, t);
    } else if s1.cache.slots[pc.key].obj.Some? {
      QuietMove(s1, t, Idle);
    } else {
      RegisterInv(s1, t, cell);
    }
  }

  lemma StepInv<K, V, L>(s: Machine<K, V, L>, a: Step<K, V, L>)
    requires Inv(s) && Enabled(s, a)
    ensures Inv(Apply(s, a))
  {
    var pc := PcOf(s, a.t);
    assert a.t in s.threads ==> ThreadOK(s, pc);
    match a
    case Call(t, k, v) => QuietMove(s, t, Entering(k, v, None));
    case Enter(t, cell) => EnterInv(s, t, cell);
    case Await(t) => QuietMove(s, t, Entering(pc.key, pc.newObj, Some(pc.latch)));
    case Load(t, obj) => QuietMove(s, t, Loaded(pc.key, pc.newObj, obj));
    case LoadThrows(t) => QuietMove(s, t, Failing(pc.key));
    case Fail(t) => PublishInv(s, t, pc.key, None, Threw);
    case Install(t) => PublishInv(s, t, pc.key, Kept(pc.obj, pc.newObj), ResultOf(pc.obj));
    case CountDown(t) => CountDownInv(s, t);
    case Unpin(t, k) => UnpinInv(s, t, k);
  }

  /****** What the protocol guarantees ******/

  datatype Run<K(==), V, L(==)> = Run(states: seq<Machine<K, V, L>>, steps: seq<Step<K, V, L>>)

  ghost predicate IsRun<K, V, L>(r: Run<K, V, L>) {
    && |r.states| == |r.steps| + 1 && Init(r.states[0])
    && forall i :: 0 <= i < |r.steps| ==> Enabled(r.states[i], r.steps[i]) && r.states[i + 1] == Apply(r.states[i], r.steps[i])
  }

  lemma {:induction false} RunInv<K, V, L>(r: Run<K, V, L>, i: nat)
    requires IsRun(r) && i < |r.states|
    ensures Inv(r.states[i])
  {
    if i > 0 {
      RunInv(r, i - 1);
      StepInv(r.states[i - 1], r.steps[i - 1]);
    }
  }

  /** At most one thread at a time is loading a key, and it is loading exactly while the key has a placeholder. */
  lemma OneLoadPerKey<K, V, L>(r: Run<K, V, L>, i: nat, k: K)
    requires IsRun(r) && i < |r.states|
    ensures forall t, u | LoaderOf(r.states[i], k, t) && LoaderOf(r.states[i], k, u) :: t == u
    ensures BeingLoaded(r.states[i], k) <==> k in r.states[i].cache.slots && r.states[i].cache.slots[k].obj.None?
  {
    RunInv(r, i);
    var s := r.states[i];
    forall t | LoaderOf(s, k, t) ensures k in s.cache.slots {
      assert ThreadOK(s, s.threads[t]);
    }
    if k in s.cache.slots {
      assert EntryOK(s, k);
    }
  }

  /** The thread that will open latch `l`. */
  ghost predicate Opener<K, V, L>(s: Machine<K, V, L>, l: L, u: nat) {
    InHand(s, u, l) || exists k :: k in s.cache.slots && HangsOn(s, k, l) && LoaderOf(s, k, u)
  }

  /** How many steps that thread still has to take. */
  ghost function StepsToOpen<K, V, L>(pc: Pc<K, V, L>): nat {
    match pc
    case Idle => 0
    case Entering(_, _, _) => 0
    case Awaiting(_, _, _) => 0
    case Loading(_, _) => 3
    case Loaded(_, _, _) => 2
    case Failing(_) => 2
    case Counting(_, _) => 1
  }

  /** No waiter is stranded: it can go on, or a thread that waits for nothing is going to open its latch. */
  lemma NoWaiterStranded<K, V, L>(r: Run<K, V, L>, i: nat, t: nat)
    requires IsRun(r) && i < |r.states| && PcOf(r.states[i], t).Awaiting?
    ensures var s, l := r.states[i], PcOf(r.states[i], t).latch;
      Enabled(s, Await(t)) || exists u :: Opener(s, l, u) && StepsToOpen(PcOf(s, u)) > 0
  {
    RunInv(r, i);
    var s, l := r.states[i], PcOf(r.states[i], t).latch;
    assert ThreadOK(s, s.threads[t]) && LatchOK(s, l);
    if s.cache.latches[l].count != 0 {
      assert Closed(s, l);
      if u :| InHand(s, u, l) {
        assert Opener(s, l, u);
      } else {
        var k :| k in s.cache.slots && HangsOn(s, k, l);
        assert EntryOK(s, k);
        var u :| LoaderOf(s, k, u);
        assert Opener(s, l, u);
      }
    }
  }

  /** That thread can take its next step at any time, ... */
  lemma OpenerNotBlocked<K, V, L>(s: Machine<K, V, L>, l: L, u: nat)
    requires Inv(s) && Opener(s, l, u)
    ensures match PcOf(s, u)
      case Loading(_, _) => Enabled(s, Load(u, None)) && Enabled(s, LoadThrows(u))
      case Loaded(_, _, _) => Enabled(s, Install(u))
      case Failing(_) => Enabled(s, Fail(u))
      case Counting(_, _) => Enabled(s, CountDown(u))
      case _ => false
  {
    assert ThreadOK(s, s.threads[u]);
  }

  /** ... each of its steps brings it nearer to opening the latch, and no other thread's step takes its place. */
  lemma OpenerProgress<K, V, L>(s: Machine<K, V, L>, a: Step<K, V, L>, l: L, u: nat)
    requires Inv(s) && Enabled(s, a) && Opener(s, l, u)
    ensures var s' := Apply(s, a);
      if a.t != u then Opener(s', l, u) && PcOf(s', u) == PcOf(s, u)
      else StepsToOpen(PcOf(s', u)) < StepsToOpen(PcOf(s, u))
           && (Opener(s', l, u) || (l in s'.cache.latches && s'.cache.latches[l].count == 0))
  {
    var s' := Apply(s, a);
    assert ThreadOK(s, s.threads[u]);
    if InHand(s, u, l) {
      if a.t != u { assert InHand(s', u, l); } else { CountDownInv(s, u); }
    } else {
      var k :| k in s.cache.slots && HangsOn(s, k, l) && LoaderOf(s, k, u);
      assert EntryOK(s, k);
      if a.t != u {
        OthersKeepEntry(s, a, k, l, u);
      } else if a.Install? || a.Fail? {
        assert InHand(s', u, l);
      } else {
        assert HangsOn(s', k, l) && LoaderOf(s', k, u);
      }
    }
  }

  lemma OthersKeepEntry<K, V, L>(s: Machine<K, V, L>, a: Step<K, V, L>, k: K, l: L, u: nat)
    requires Inv(s) && Enabled(s, a) && HangsOn(s, k, l) && LoaderOf(s, k, u) && a.t != u
    ensures HangsOn(Apply(s, a), k, l) && LoaderOf(Apply(s, a), k, u)
  {
    assert EntryOK(s, k);
    if a.Install? || a.Fail? {
      assert PcOf(s, a.t).key == k ==> LoaderOf(s, k, a.t);
    } else if a.Enter? {
      var pc := PcOf(s, a.t);
      assert Drop(s.cache, pc.left).slots == s.cache.slots;
    }
  }

  /** A latch is opened once, and freed once, by its last waiter, when it is open. */
  lemma LatchLife<K, V, L>(s: Machine<K, V, L>, a: Step<K, V, L>, l: L)
    requires Inv(s) && Enabled(s, a) && l in s.cache.latches
    ensures var c, c' := s.cache, Apply(s, a).cache;
      if l in c'.latches then
        c'.latches[l].count == (if a == CountDown(a.t) && PcOf(s, a.t).latch == l then 0 else c.latches[l].count)
      else
        a.Enter? && PcOf(s, a.t).left == Some(l) && Waiters(s.threads, l) == {a.t} && c.latches[l].count == 0
  {
    if a.CountDown? {
      CountDownInv(s, a.t);
    } else if a.Enter? {
      EnterLatch(s, a.t, a.cell, l);
    } else {
      assert Apply(s, a).cache.latches == s.cache.latches;
    }
  }

  lemma EnterLatch<K, V, L>(s: Machine<K, V, L>, t: nat, cell: L, l: L)
    requires Inv(s) && Enabled(s, Enter(t, cell)) && l in s.cache.latches
    ensures var c, c' := s.cache, EnterStep(s, t, cell).cache;
      if l in c'.latches then c'.latches[l].count == c.latches[l].count
      else PcOf(s, t).left == Some(l) && Waiters(s.threads, l) == {t} && c.latches[l].count == 0
  {
    EnterCounts(s, t, cell, l);
    if l !in Drop(s.cache, PcOf(s, t).left).latches {
      LastWaiter(s, t, l);
    }
  }

  /** After the drop, the section only adds users and latches. */
  lemma EnterCounts<K, V, L>(s: Machine<K, V, L>, t: nat, cell: L, l: L)
    requires Enabled(s, Enter(t, cell)) && l in s.cache.latches
    ensures var d, c' := Drop(s.cache, PcOf(s, t).left), EnterStep(s, t, cell).cache;
      l in d.latches <==> l in c'.latches
    ensures l in EnterStep(s, t, cell).cache.latches ==> EnterStep(s, t, cell).cache.latches[l].count == s.cache.latches[l].count
  {
  }

  /** The thread whose drop frees a latch is its one registered waiter, and the latch is open. */
  lemma LastWaiter<K, V, L>(s: Machine<K, V, L>, t: nat, l: L)
    requires Inv(s) && PcOf(s, t).Entering? && l in s.cache.latches
    requires PcOf(s, t).left.Some? ==> PcOf(s, t).left.value in s.cache.latches
    requires l !in Drop(s.cache, PcOf(s, t).left).latches
    ensures PcOf(s, t).left == Some(l) && Waiters(s.threads, l) == {t} && s.cache.latches[l].count == 0
  {
    assert LatchOK(s, l) && ThreadOK(s, PcOf(s, t));
    assert Holds(s.threads[t], l) && t in Waiters(s.threads, l);
    assert Waiters(s.threads, l) == {t} + (Waiters(s.threads, l) - {t});
  }

  /** A freed latch is referred to by nobody. */
  lemma NoDanglingLatch<K, V, L>(r: Run<K, V, L>, i: nat, l: L)
    requires IsRun(r) && i < |r.states| && l !in r.states[i].cache.latches
    ensures var s := r.states[i];
      !Closed(s, l) && forall t | t in s.threads :: !Holds(s.threads[t], l)
  {
    RunInv(r, i);
    var s := r.states[i];
    NoWaiters(s, l);
    assert forall t | t in s.threads :: Holds(s.threads[t], l) ==> t in Waiters(s.threads, l);
    forall k | k in s.cache.slots ensures !HangsOn(s, k, l) {
      assert EntryOK(s, k);
    }
    forall t ensures !InHand(s, t, l) {
      assert t in s.threads ==> ThreadOK(s, s.threads[t]);
    }
  }

  /** A woken waiter can enter: the latch it leaves hangs on no entry, so freeing it leaves none dangling. */
  lemma EnterNotBlocked<K, V, L>(s: Machine<K, V, L>, t: nat, cell: L)
    requires Inv(s) && PcOf(s, t).Entering? && cell !in s.cache.latches
    ensures Enabled(s, Enter(t, cell))
    ensures forall k | k in s.cache.slots && PcOf(s, t).left.Some? :: s.cache.slots[k].latch != PcOf(s, t).left
  {
    var pc := PcOf(s, t);
    assert ThreadOK(s, pc);
    assert pc.left.Some? ==> LatchOK(s, pc.left.value);
    forall k | k in s.cache.slots && pc.left.Some? ensures s.cache.slots[k].latch != pc.left {
      assert !HangsOn(s, k, pc.left.value);
    }
    if pc.key in s.cache.slots {
      assert EntryOK(s, pc.key);
    }
  }

  /****** What callers see ******/

  /** The pinned objects. */
  ghost function Objects<K, V, L>(c: Cache<K, V, L>): map<K, V> {
    map k | k in c.slots && c.slots[k].obj.Some? :: c.slots[k].obj.value
  }

  datatype Event<K, V> = Quiet | Pinned(key: K, newObj: Option<V>, r: Result<V>) | Unpinned(key: K)

  /** The step in which a call's result is decided. */
  ghost function EventOf<K, V, L>(s: Machine<K, V, L>, a: Step<K, V, L>): Event<K, V>
    requires Enabled(s, a)
  {
    var c, pc := s.cache, PcOf(s, a.t);
    match a
    case Enter(_, _) =>
      if pc.key in c.slots && c.slots[pc.key].obj.Some? then Pinned(pc.key, pc.newObj, Found(c.slots[pc.key].obj.value)) else Quiet
    case Fail(_) => Pinned(pc.key, None, Threw)
    case Install(_) => Pinned(pc.key, pc.newObj, ResultOf(pc.obj))
    case Unpin(_, k) => Unpinned(k)
    case _ => Quiet
  }

  /**
   The contract of pin and putIfAbsent on a map of pinned objects: an object that comes back is
   the pinned one; null means nothing was pinned, and then exactly putIfAbsent's own object is.
   */
  ghost predicate Accepts<K, V>(p: map<K, V>, ev: Event<K, V>, q: map<K, V>) {
    match ev
    case Quiet => q == p
    case Unpinned(k) => k in p && q == p - {k}
    case Pinned(k, newObj, r) =>
      match r
      case Found(v) => if k in p then p[k] == v && q == p else q == p[k := v]
      case Null => k !in p && q == if newObj.Some? then p[k := newObj.value] else p
      case Threw => k !in p && q == p
  }

  lemma PinRefines<K, V, L>(s: Machine<K, V, L>, a: Step<K, V, L>)
    requires Inv(s) && Enabled(s, a)
    ensures Accepts(Objects(s.cache), EventOf(s, a), Objects(Apply(s, a).cache))
  {
    var pc := PcOf(s, a.t);
    assert a.t in s.threads ==> ThreadOK(s, pc);
    if a.Install? || a.Fail? {
      assert LoaderOf(s, pc.key, a.t) && EntryOK(s, pc.key);
    }
    if a.Enter? {
      assert Objects(Drop(s.cache, pc.left)) == Objects(s.cache);
    }
  }

  /** A call's key and object, while it is in progress. */
  ghost predicate Serves<K, V, L>(pc: Pc<K, V, L>, k: K, newObj: Option<V>) {
    || ((pc.Entering? || pc.Awaiting? || pc.Loading? || pc.Loaded?) && pc.key == k && pc.newObj == newObj)
    || (pc.Failing? && pc.key == k)
  }

  /** Thread `t` made the call at step `j`, and has made no other before step `i`. */
  ghost predicate LastCall<K, V, L>(r: Run<K, V, L>, j: nat, i: nat, t: nat, k: K, newObj: Option<V>) {
    && j < i <= |r.steps| && r.steps[j] == Call(t, k, newObj)
    && forall n :: j < n < i && r.steps[n].t == t ==> !r.steps[n].Call?
  }

  /** A thread inside pinImpl is there for its last call. */
  lemma {:induction false} ServesLastCall<K, V, L>(r: Run<K, V, L>, i: nat, t: nat) returns (j: nat, newObj: Option<V>)
    requires IsRun(r) && i < |r.states|
    requires InCall(PcOf(r.states[i], t))
    ensures LastCall(r, j, i, t, PcOf(r.states[i], t).key, newObj)
    ensures Serves(PcOf(r.states[i], t), PcOf(r.states[i], t).key, newObj)
  {
    var a := r.steps[i - 1];
    if a.Call? && a.t == t {
      j, newObj := i - 1, a.newObj;
    } else {
      ServingStep(r.states[i - 1], a, t);
      j, newObj := ServesLastCall(r, i - 1, t);
    }
  }

  ghost predicate InCall<K, V, L>(pc: Pc<K, V, L>) {
    pc.Entering? || pc.Awaiting? || pc.Loading? || pc.Loaded? || pc.Failing?
  }

  lemma ServingStep<K, V, L>(s: Machine<K, V, L>, a: Step<K, V, L>, t: nat)
    requires Enabled(s, a) && InCall(PcOf(Apply(s, a), t)) && !(a.Call? && a.t == t)
    ensures InCall(PcOf(s, t)) && PcOf(s, t).key == PcOf(Apply(s, a), t).key
    ensures forall newObj | Serves(PcOf(s, t), PcOf(s, t).key, newObj) :: Serves(PcOf(Apply(s, a), t), PcOf(s, t).key, newObj)
  {
  }

  /** The last step of thread `t` before step `i` is step `m`, a load that found `obj`. */
  ghost predicate LoadedAt<K, V, L>(r: Run<K, V, L>, m: nat, i: nat, t: nat, obj: Option<V>) {
    m < i <= |r.steps| && r.steps[m] == Load(t, obj) && forall n :: m < n < i ==> r.steps[n].t != t
  }

  lemma LoadedStep<K, V, L>(s: Machine<K, V, L>, a: Step<K, V, L>, t: nat)
    requires Enabled(s, a) && PcOf(Apply(s, a), t).Loaded?
    ensures if a.t == t then a == Load(t, PcOf(Apply(s, a), t).obj) else PcOf(s, t) == PcOf(Apply(s, a), t)
  {
  }

  /** What a loading thread holds is what its load, since that call, found. */
  lemma {:induction false} LoadedIsFound<K, V, L>(r: Run<K, V, L>, i: nat, t: nat)
    requires IsRun(r) && i < |r.states| && PcOf(r.states[i], t).Loaded?
    ensures exists m: nat :: LoadedAt(r, m, i, t, PcOf(r.states[i], t).obj)
  {
    if i > 0 {
      LoadedStep(r.states[i - 1], r.steps[i - 1], t);
      if r.steps[i - 1].t == t {
        assert LoadedAt(r, i - 1, i, t, PcOf(r.states[i], t).obj);
      } else {
        LoadedIsFound(r, i - 1, t);
        var m: nat :| LoadedAt(r, m, i - 1, t, PcOf(r.states[i], t).obj);
        assert LoadedAt(r, m, i, t, PcOf(r.states[i], t).obj);
      }
    }
  }

  /** The answer a step of thread `t` gives is one to its last call, and after a load it is what that load found. */
  lemma AnswersLastCall<K, V, L>(r: Run<K, V, L>, i: nat)
    requires IsRun(r) && i < |r.steps| && EventOf(r.states[i], r.steps[i]).Pinned?
    ensures var ev, t := EventOf(r.states[i], r.steps[i]), r.steps[i].t;
      && (exists j: nat, newObj :: LastCall(r, j, i, t, ev.key, newObj) && (!ev.r.Threw? ==> newObj == ev.newObj))
      && (r.steps[i].Install? ==> exists m: nat, obj :: LoadedAt(r, m, i, t, obj) && ResultOf(obj) == ev.r)
  {
    var s, t := r.states[i], r.steps[i].t;
    var j, newObj := ServesLastCall(r, i, t);
    assert LastCall(r, j, i, t, PcOf(s, t).key, newObj);
    if r.steps[i].Install? {
      LoadedIsFound(r, i, t);
    }
  }

  /** What a thread that is about to count a latch down will return is the answer it gave in its last step. */
  lemma {:induction false} ReturnsItsAnswer<K, V, L>(r: Run<K, V, L>, i: nat, t: nat)
    requires IsRun(r) && i < |r.states| && PcOf(r.states[i], t).Counting?
    ensures exists m: nat :: AnsweredAt(r, m, i, t, PcOf(r.states[i], t).result)
  {
    var a := r.steps[i - 1];
    if a.t == t {
      assert AnsweredAt(r, i - 1, i, t, PcOf(r.states[i], t).result);
    } else {
      ReturnsItsAnswer(r, i - 1, t);
      var m: nat :| AnsweredAt(r, m, i - 1, t, PcOf(r.states[i], t).result);
      assert AnsweredAt(r, m, i, t, PcOf(r.states[i], t).result);
    }
  }

  /** The last step of thread `t` before step `i` is step `m`, which gave this answer. */
  ghost predicate AnsweredAt<K, V, L>(r: Run<K, V, L>, m: nat, i: nat, t: nat, result: Result<V>) {
    && m < i <= |r.steps| && |r.states| == |r.steps| + 1 && r.steps[m].t == t
    && Enabled(r.states[m], r.steps[m])
    && (var ev := EventOf(r.states[m], r.steps[m]); ev.Pinned? && ev.r == result)
    && forall n :: m < n < i ==> r.steps[n].t != t
  }

  /****** A run with a waiter ******/

  /** Thread 1 is loading key 0, and thread 2 waits for it. */
  ghost function WaitingRun(): Run<nat, nat, nat> {
    var empty := Cache(map[], map[]);
    var reserved := Cache(map[0 := Entry(None, None)], map[]);
    var awaited := Cache(map[0 := Entry(None, Some(9))], map[9 := Latch(1, 1)]);
    Run(
      [Machine(empty, map[]),
       Machine(empty, map[1 := Entering(0, None, None)]),
       Machine(reserved, map[1 := Loading(0, None)]),
       Machine(reserved, map[1 := Loading(0, None), 2 := Entering(0, None, None)]),
       Machine(awaited, map[1 := Loading(0, None), 2 := Awaiting(0, None, 9)])],
      [Call(1, 0, None), Enter(1, 9), Call(2, 0, None), Enter(2, 9)])
  }

  lemma WaitingHappens()
    ensures IsRun(WaitingRun()) && PcOf(WaitingRun().states[4], 2).Awaiting?
    ensures Opener(WaitingRun().states[4], 9, 1)
  {
    var r := WaitingRun();
    assert r.states[1] == Apply(r.states[0], r.steps[0]);
    assert r.states[2] == Apply(r.states[1], r.steps[1]);
    assert r.states[3] == Apply(r.states[2], r.steps[2]);
    assert r.states[4] == Apply(r.states[3], r.steps[3]);
    assert HangsOn(r.states[4], 0, 9) && LoaderOf(r.states[4], 0, 1);
  }
}
