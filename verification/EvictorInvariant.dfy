/**
 The invariant of the evictor. Everything it says about one element is a fact about the
 element's `Observation`: its fields, whether it is pinned and listed, who owns a usage count
 on it, and what the database will hold for its key once the streamed records are committed.
 A step changes few observations, so preservation is shown element by element.
 */
module EvictorInvariant {
  import opened EvictorTypes
  import opened EvictorSections
  import opened EvictorMachine

  /****** Owners of usage counts ******/

  ghost predicate HasCookie<E>(pc: Pc<E>, e: E) {
    (pc.Holding? || pc.Finishing?) && pc.e == e
  }

  ghost function CookieThreads<E>(threads: map<nat, Pc<E>>, e: E): set<nat> {
    set t | t in threads && HasCookie(threads[t], e)
  }

  /** Outstanding locate cookies on `e`. */
  ghost function Cookies<E>(threads: map<nat, Pc<E>>, e: E): nat {
    |CookieThreads(threads, e)|
  }

  /** Modified queue entries, entries of the saving thread's batch, and cookies. */
  ghost function Owners<E>(s: Machine<E>, e: E): nat {
    multiset(s.sh.queue)[e] + multiset(s.saver.batch)[e] + Cookies(s.threads, e)
  }

  /** A finished() between its two sections that will enqueue `e`. */
  ghost predicate EnqueuePending<E>(threads: map<nat, Pc<E>>, e: E) {
    exists t :: t in threads && threads[t] == Finishing(e, true)
  }

  /** A mutating dispatch on `e` is in progress. */
  ghost predicate Loaned<E>(threads: map<nat, Pc<E>>, e: E) {
    exists t :: t in threads && threads[t].Holding? && threads[t].e == e && threads[t].mutating
  }

  /** Someone is still going to stream `e`. */
  ghost predicate Queued<E>(s: Machine<E>, e: E) {
    || e in s.sh.queue
    || e in Unstreamed(s.saver)
    || EnqueuePending(s.threads, e)
  }

  ghost function Unstreamed<E>(v: Saver<E>): seq<E> {
    if v.next <= |v.batch| then v.batch[v.next..] else []
  }

  /****** The database with the streamed records applied ******/

  ghost function Project<E>(db: map<Key, string>, rs: seq<Rec<E>>): map<Key, string> {
    if rs == [] then db
    else
      var d := Project(db, rs[..|rs| - 1]);
      match Save(d, rs[|rs| - 1])
      case None => d
      case Some(d') => d'
  }

  ghost function Disk<E>(s: Machine<E>): map<Key, string> {
    Project(s.db, s.saver.pending)
  }

  /****** One element ******/

  datatype Observation = Observation(
    elem: Elem,
    pinned: bool,
    listed: bool,
    owners: nat,
    queued: bool,
    loaned: bool,
    disk: Option<string>)

  ghost function Observe<E>(s: Machine<E>, e: E): Observation
    requires e in s.sh.elems
  {
    Observation(
      s.sh.elems[e],
      IfPinned(s.sh, s.sh.elems[e].key) == Some(e),
      e in s.sh.list,
      Owners(s, e),
      Queued(s, e),
      Loaned(s.threads, e),
      Get(Disk(s), s.sh.elems[e].key))
  }

  /** The element is in the cache map exactly when it is not stale, and listed exactly when it can be evicted or used. */
  ghost predicate StructureOK(o: Observation) {
    var x := o.elem;
    && o.pinned == !x.stale
    && o.listed == (!x.stale && x.usage >= 0 && x.keep == 0)
    && x.keep >= 0
    && (x.keep > 0 ==> !x.stale && x.usage >= 0 && Present(x.status))
  }

  /** Usage counts are conserved; -1 marks an element no locked section has seen yet. */
  ghost predicate UsageOK(o: Observation) {
    var x := o.elem;
    && x.usage >= -1
    && o.owners == (if !x.stale && x.usage >= 0 then x.usage else 0)
    && (!x.stale && x.usage < 0 ==> x.status.Clean? || x.status.Dead?)
  }

  /** The status says what the database holds, and an unsaved change is always queued. */
  ghost predicate StatusOK(o: Observation) {
    var x := o.elem;
    !x.stale ==>
      && (Present(x.status) <==> x.servant.Some?)
      && (x.status.Created? || x.status.Dead? <==> o.disk.None?)
      && (x.status.Clean? ==> o.loaned || o.disk == Some(x.servant.value.state))
      && (Dirty(x.status) ==> o.queued)
  }

  ghost predicate ElementOK(o: Observation) {
    StructureOK(o) && UsageOK(o) && StatusOK(o)
  }

  ghost predicate ElementsOK<E>(s: Machine<E>) {
    forall e {:trigger Observe(s, e)} :: e in s.sh.elems ==> ElementOK(Observe(s, e))
  }

  /****** The rest of the state ******/

  ghost predicate CacheOK<E>(s: Machine<E>) {
    && (forall k :: k in s.sh.cache ==> k.facet in s.sh.stores)
    && (forall k :: k in s.sh.cache && s.sh.cache[k].Pinned? ==>
          s.sh.cache[k].e in s.sh.elems && s.sh.elems[s.sh.cache[k].e].key == k)
    && (forall k :: k in s.db ==> k.facet in s.sh.stores)
  }

  ghost predicate ListOK<E>(s: Machine<E>) {
    && NoDup(s.sh.list)
    && s.sh.size == |s.sh.list|
    && (forall e :: e in s.sh.list ==> e in s.sh.elems)
  }

  /** Handles held in queues and by threads denote elements. */
  ghost predicate HandlesOK<E>(s: Machine<E>) {
    && (forall e :: e in s.sh.queue ==> e in s.sh.elems)
    && (forall e :: e in s.saver.batch ==> e in s.sh.elems)
    && (forall e :: e in s.saver.dead ==> e in s.saver.batch)
    && (forall t {:trigger PcOK(s, t, s.threads[t])} :: t in s.threads ==> PcOK(s, t, s.threads[t]))
  }

  ghost predicate OpOK<E>(s: Machine<E>, op: Op) {
    Usable(op.key) && op.key.facet in s.sh.stores
  }

  ghost predicate PcOK<E>(s: Machine<E>, t: nat, pc: Pc<E>) {
    match pc
    case Idle => true
    case Pinning(op) => Usable(op.key) && (op.key.facet in s.sh.stores || op.AddOp?)
    case Loading(op) => OpOK(s, op) && op.key in s.sh.cache && s.sh.cache[op.key] == Placeholder(t)
    case Loaded(op, record) =>
      && OpOK(s, op)
      && op.key in s.sh.cache && s.sh.cache[op.key] == Placeholder(t)
      && record == Get(s.db, op.key)
    case Locking(op, e) => OpOK(s, op) && e in s.sh.elems && s.sh.elems[e].key == op.key
    case Holding(e, _, _) => e in s.sh.elems
    case Finishing(e, _) => e in s.sh.elems
    case Missed(_) => true
    case SavingNow => true
    case Deactivating => true
  }

  /** Each record was streamed from an element of the batch, and saves without error in order. */
  ghost predicate PendingOK<E>(s: Machine<E>) {
    && (forall i :: 0 <= i < |s.saver.pending| ==>
          && s.saver.pending[i].e in s.saver.batch
          && s.saver.pending[i].e in s.sh.elems
          && s.sh.elems[s.saver.pending[i].e].key == s.saver.pending[i].key)
    && SaveAll(s.db, s.saver.pending).Some?
  }

  ghost predicate SaverOK<E>(s: Machine<E>) {
    var v := s.saver;
    && !v.phase.Failed?
    && v.snap <= |s.sh.waiters|
    && v.next <= |v.batch|
    && (v.phase.Waiting? || v.phase.Exited? ==> v == IdleSaver(v.phase))
    && (v.phase.Writing? ==> v.next == |v.batch| && (v.pending != [] ==> v.txSize >= 1))
    && s.maxTx >= 1
    && (v.phase.Exited? ==> s.gate.Stopping? || s.gate.Closed?)
  }

  /** Once a thread has been told to deactivate, no other thread is inside the evictor. */
  ghost predicate GateOK<E>(s: Machine<E>) {
    && (!s.gate.Open? && !s.gate.Draining? ==> NoGuards(s))
    && (s.gate.Saving? ==> SavingOK(s, s.gate.t))
    && (s.gate.Stopping? || s.gate.Closed? ==>
          s.sh.queue == [] && s.sh.waiters == [] && (s.saver.phase.Waiting? || s.saver.phase.Exited?))
    && (s.gate.Closed? ==> s.saver.phase.Exited?)
    && (s.gate.Draining? || s.gate.Saving? || s.gate.Stopping? ==> PcOf(s, s.gate.t).Deactivating?)
    && (forall t :: t in s.sh.waiters ==> (t in s.threads && s.threads[t].SavingNow?) || s.gate == Saving(t))
  }

  /** While the deactivating thread waits in saveNow, whatever is left to save is ahead of it. */
  ghost predicate SavingOK<E>(s: Machine<E>, t: nat) {
    || (s.sh.waiters == [] && s.sh.queue == [] && s.saver.phase.Waiting?)
    || (s.sh.waiters == [t] && (s.saver.snap == 0 || s.sh.queue == []))
  }

  ghost predicate Inv<E>(s: Machine<E>) {
    && ElementsOK(s)
    && CacheOK(s)
    && ListOK(s)
    && HandlesOK(s)
    && PendingOK(s)
    && SaverOK(s)
    && GateOK(s)
  }

  ghost predicate Init<E>(s: Machine<E>) {
    && s.sh.elems == map[] && s.sh.cache == map[] && s.sh.list == [] && s.sh.size == 0
    && s.sh.queue == [] && s.sh.waiters == []
    && "" in s.sh.stores && (forall k :: k in s.db ==> k.facet in s.sh.stores)
    && s.threads == map[] && s.saver == IdleSaver(Waiting) && s.gate.Open? && s.maxTx >= 1
  }

}
