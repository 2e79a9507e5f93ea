/**
 The evictor as a transition system: any number of client threads, the saving thread and a
 deactivating thread, interleaved at the granularity of the source's critical sections, over a
 database that commits batches atomically. Every transition is labelled with what the client sees.
 */
module EvictorMachine {
  import opened EvictorTypes
  import opened EvictorSections
  import opened PlainMap

  /** The operations that pin an element and then enter the evictor lock. */
  datatype Op =
    | AddOp(key: Key, servant: Servant)
    | CreateOp(key: Key, servant: Servant)
    | RemoveOp(key: Key)
    | KeepOp(key: Key)
    | LocateOp(key: Key, mutating: bool)

  /** Where a client thread is. */
  datatype Pc<+E> =
    | Idle
    | Pinning(op: Op)                                // in the retry loop, about to pin
    | Loading(op: Op)                                // inserted the placeholder, not yet read the database
    | Loaded(op: Op, record: Option<string>)         // read the database, not yet installed
    | Locking(op: Op, e: E)                          // pin returned e, not yet in the locked section
    | Holding(e: E, oid: nat, mutating: bool)        // dispatching between locate and finished
    | Finishing(e: E, enqueue: bool)                 // between the two sections of finished
    | Missed(key: Key)                               // hasFacet found nothing pinned, about to read the database
    | SavingNow                                      // waiting inside saveNow
    | Deactivating                                   // inside deactivate

  /** A StreamedObject, with the element it was streamed from. */
  datatype Rec<+E> = Rec(e: E, key: Key, status: Status, data: string)

  datatype Phase = Waiting | Streaming | Writing | Exited | Failed

  /**
   The locals of run(): the swapped-out queue, the position and the servant waited for while
   streaming, the streamed objects not yet committed, the dead elements, and the number of
   saveNow waiters this round serves.
   */
  datatype Saver<E> = Saver(
    phase: Phase,
    batch: seq<E>,
    next: nat,
    held: Option<nat>,
    pending: seq<Rec<E>>,
    dead: seq<E>,
    snap: nat,
    txSize: nat)

  /** Progress of deactivate(): which thread does it, and how far it got. */
  datatype Gate = Open | Draining(t: nat) | Saving(t: nat) | Stopping(t: nat) | Closed

  datatype Machine<E> = Machine(
    sh: Shared<E>,
    db: map<Key, string>,
    threads: map<nat, Pc<E>>,
    saver: Saver<E>,
    gate: Gate,
    maxTx: nat)

  ghost function PcOf<E>(s: Machine<E>, t: nat): Pc<E> {
    if t in s.threads then s.threads[t] else Idle
  }

  ghost function SetPc<E>(s: Machine<E>, t: nat, pc: Pc<E>): Machine<E> {
    s.(threads := s.threads[t := pc])
  }

  /** The thread holds a DeactivateController::Guard. */
  ghost predicate InGuard<E>(pc: Pc<E>) {
    !pc.Idle? && !pc.Holding? && !pc.Deactivating?
  }

  /** _guardCount == 0. */
  ghost predicate NoGuards<E>(s: Machine<E>) {
    forall t :: t in s.threads ==> !InGuard(s.threads[t])
  }

  /****** The database ******/

  /** ObjectStore::save: None stands for the thrown DatabaseException. */
  function Save<E>(db: map<Key, string>, r: Rec<E>): Option<map<Key, string>> {
    match r.status
    case Created => if r.key in db then None else Some(db[r.key := r.data])
    case Modified => Some(db[r.key := r.data])
    case Destroyed => if r.key in db then Some(db - {r.key}) else None
    case Clean => None
    case Dead => None
  }

  /** One transaction over a list of records. */
  ghost function SaveAll<E>(db: map<Key, string>, rs: seq<Rec<E>>): Option<map<Key, string>> {
    if rs == [] then Some(db)
    else match SaveAll(db, rs[..|rs| - 1])
      case None => None
      case Some(d) => Save(d, rs[|rs| - 1])
  }

  /****** Transitions ******/

  datatype Step<E> =
    // client operations
    | Call(t: nat, op: Op)
    | OpenStore(t: nat)
    | PinHit(t: nat)
    | PinMiss(t: nat)
    | LoadRead(t: nat)
    | LoadFail(t: nat)
    | Install(t: nat, e: E, oid: nat)
    | Section(t: nat)
    | ReleaseCall(t: nat, key: Key)
    | HasCall(t: nat, key: Key)
    | HasRead(t: nat)
    | SetSize(t: nat, n: int)
    | Mutate(t: nat, state: string)
    | FinishCall(t: nat)
    | FinishLock(t: nat)
    | SaveNowCall(t: nat)
    | SaveNowReturn(t: nat)
    // the saving thread
    | Swap
    | StreamOne(acquired: bool)
    | StreamLocked
    | EndStreaming
    | Commit
    | Deadlock
    | Release
    | Exit
    // deactivation
    | DeactivateCall(t: nat)
    | DeactivateSave(t: nat)
    | DeactivateStop(t: nat)
    | DeactivateDone(t: nat)

  ghost predicate Usable(k: Key) {
    k.name != ""   // checkIdentity
  }

  ghost predicate Enabled<E>(s: Machine<E>, a: Step<E>) {
    match a
    case Call(t, op) => PcOf(s, t).Idle? && s.gate.Open? && Usable(op.key) && (op.CreateOp? ==> op.key.facet == "")
    case OpenStore(t) => PcOf(s, t).Pinning? && PcOf(s, t).op.AddOp? && PcOf(s, t).op.key.facet !in s.sh.stores
    case PinHit(t) => PcOf(s, t).Pinning? && IfPinned(s.sh, PcOf(s, t).op.key).Some?
    case PinMiss(t) => PcOf(s, t).Pinning? && PcOf(s, t).op.key !in s.sh.cache && PcOf(s, t).op.key.facet in s.sh.stores
    case LoadRead(t) => PcOf(s, t).Loading?
    case LoadFail(t) => PcOf(s, t).Loading?
    case Install(t, e, oid) => PcOf(s, t).Loaded? && e !in s.sh.elems
    case Section(t) => PcOf(s, t).Locking? && PcOf(s, t).e in s.sh.elems
    case ReleaseCall(t, k) => PcOf(s, t).Idle? && s.gate.Open? && Usable(k)
    case HasCall(t, k) => PcOf(s, t).Idle? && s.gate.Open? && Usable(k)
    case HasRead(t) => PcOf(s, t).Missed?
    case SetSize(t, n) => PcOf(s, t).Idle? && s.gate.Open? && Listed(s.sh)
    case Mutate(t, v) => PcOf(s, t).Holding? && PcOf(s, t).mutating && PcOf(s, t).e in s.sh.elems
    case FinishCall(t) => PcOf(s, t).Holding? && s.gate.Open? && PcOf(s, t).e in s.sh.elems
    case FinishLock(t) => PcOf(s, t).Finishing? && PcOf(s, t).e in s.sh.elems && Listed(s.sh)
    case SaveNowCall(t) => PcOf(s, t).Idle? && s.gate.Open?
    case SaveNowReturn(t) => PcOf(s, t).SavingNow? && t !in s.sh.waiters
    case Swap => s.saver.phase.Waiting? && !s.gate.Stopping?
    case StreamOne(acquired) => s.saver.phase.Streaming? && s.saver.next < |s.saver.batch| && s.saver.held.None?
                                && s.saver.batch[s.saver.next] in s.sh.elems
    case StreamLocked => s.saver.phase.Streaming? && s.saver.next < |s.saver.batch| && s.saver.held.Some?
                         && s.saver.batch[s.saver.next] in s.sh.elems
    case EndStreaming => s.saver.phase.Streaming? && s.saver.next == |s.saver.batch|
    case Commit => s.saver.phase.Writing? && s.saver.pending != []
    case Deadlock => s.saver.phase.Writing? && s.saver.pending != []
    case Release => s.saver.phase.Writing? && s.saver.pending == [] && Listed(s.sh) && s.saver.snap <= |s.sh.waiters|
                    && (forall e | e in s.saver.dead :: e in s.sh.elems)
    case Exit => s.saver.phase.Waiting? && s.gate.Stopping?
    case DeactivateCall(t) => PcOf(s, t).Idle? && s.gate.Open?
    case DeactivateSave(t) => s.gate == Draining(t) && NoGuards(s)
    case DeactivateStop(t) => s.gate == Saving(t) && t !in s.sh.waiters && Listed(s.sh)
    case DeactivateDone(t) => s.gate == Stopping(t) && s.saver.phase.Exited?
  }

  /** The new element after `load`: a clean one read from the database, or the dead one of putIfAbsent. */
  ghost function NewElem(k: Key, record: Option<string>, oid: nat): Elem {
    match record
    case Some(data) => Elem(k, Some(Servant(oid, data)), Clean, -1, 0, false)
    case None => Elem(k, None, Dead, -1, 0, false)
  }

  /** pin returns null on a miss, putIfAbsent installs its own element. */
  ghost function InstallStep<E>(s: Machine<E>, t: nat, e: E, oid: nat): Machine<E>
    requires PcOf(s, t).Loaded?
  {
    var op, record := PcOf(s, t).op, PcOf(s, t).record;
    if record.None? && !op.AddOp? && !op.CreateOp? then
      SetPc(s, t, Idle).(sh := s.sh.(cache := s.sh.cache - {op.key}))
    else
      SetPc(s, t, Locking(op, e)).(sh := s.sh.(
        elems := s.sh.elems[e := NewElem(op.key, record, oid)],
        cache := s.sh.cache[op.key := Pinned(e)]))
  }

  ghost function SectionStep<E>(s: Machine<E>, t: nat): Machine<E>
    requires PcOf(s, t).Locking? && PcOf(s, t).e in s.sh.elems
  {
    var e, op := PcOf(s, t).e, PcOf(s, t).op;
    if s.sh.elems[e].stale then SetPc(s, t, Pinning(op))
    else match op
      case AddOp(_, sv) => SetPc(s, t, Idle).(sh := AddSection(s.sh, e, sv))
      case CreateOp(_, sv) => SetPc(s, t, Idle).(sh := CreateSection(s.sh, e, sv))
      case RemoveOp(_) => SetPc(s, t, Idle).(sh := RemoveSection(s.sh, e))
      case KeepOp(_) => SetPc(s, t, Idle).(sh := KeepSection(s.sh, e))
      case LocateOp(_, mutating) =>
        var x := s.sh.elems[e];
        if !Present(x.status) || x.servant.None? then SetPc(s, t, Idle)
        else SetPc(s, t, Holding(e, x.servant.value.oid, mutating)).(sh := LocateSection(s.sh, e))
  }

  ghost function FinishFirstStep<E>(s: Machine<E>, t: nat): Machine<E>
    requires PcOf(s, t).Holding? && PcOf(s, t).e in s.sh.elems
  {
    var pc := PcOf(s, t);
    SetPc(s, t, Finishing(pc.e, pc.mutating && s.sh.elems[pc.e].status.Clean?))
      .(sh := FinishFirst(s.sh, pc.e, pc.mutating))
  }

  /** The top of the saving thread's loop; it may also wake on its timer, so it can always look. */
  ghost function SwapStep<E>(s: Machine<E>): Machine<E> {
    if s.sh.queue == [] then s.(sh := s.sh.(waiters := []))
    else s.(sh := s.sh.(queue := []),
            saver := Saver(Streaming, s.sh.queue, 0, None, [], [], |s.sh.waiters|, 0))
  }

  /** stream(): the record written for an element in its current state. */
  ghost function RecordOf<E>(e: E, x: Elem): Rec<E> {
    Rec(e, x.key, x.status, if x.servant.Some? then x.servant.value.state else "")
  }

  function AfterStream(st: Status): Status {
    match st
    case Created => Clean
    case Modified => Clean
    case Destroyed => Dead
    case Clean => Clean
    case Dead => Dead
  }

  /**
   Stream the element at `next` and move on: a dirty element leaves a record, a destroyed or
   dead one is also remembered for eviction, and a clean one (a duplicate entry) is skipped.
   */
  ghost function StreamNow<E>(s: Machine<E>): Machine<E>
    requires s.saver.next < |s.saver.batch| && s.saver.batch[s.saver.next] in s.sh.elems
  {
    var v := s.saver;
    var e := v.batch[v.next];
    var x := s.sh.elems[e];
    s.(sh := With(s.sh, e, x.(status := AfterStream(x.status))),
       saver := v.(
         next := v.next + 1,
         held := None,
         pending := v.pending + if Dirty(x.status) then [RecordOf(e, x)] else [],
         dead := v.dead + if x.status.Destroyed? || x.status.Dead? then [e] else []))
  }

  /** First look: a present element whose servant's mutex is taken is left to be retried. */
  ghost function StreamOneStep<E>(s: Machine<E>, acquired: bool): Machine<E>
    requires s.saver.next < |s.saver.batch| && s.saver.batch[s.saver.next] in s.sh.elems
  {
    var x := s.sh.elems[s.saver.batch[s.saver.next]];
    if (x.status.Created? || x.status.Modified?) && x.servant.Some? && !acquired then
      s.(saver := s.saver.(held := Some(x.servant.value.oid)))
    else StreamNow(s)
  }

  /** Second look, with the servant's mutex held: try again if the servant was replaced. */
  ghost function StreamLockedStep<E>(s: Machine<E>): Machine<E>
    requires s.saver.next < |s.saver.batch| && s.saver.batch[s.saver.next] in s.sh.elems
  {
    var x := s.sh.elems[s.saver.batch[s.saver.next]];
    if (x.status.Created? || x.status.Modified?) && x.servant.Some? && s.saver.held != Some(x.servant.value.oid) then
      s.(saver := s.saver.(held := None))
    else StreamNow(s)
  }

  /** One transaction of the batching loop. */
  ghost function CommitStep<E>(s: Machine<E>): Machine<E> {
    var n := Min(s.saver.txSize, |s.saver.pending|);
    match SaveAll(s.db, s.saver.pending[..n])
    case None => s.(saver := s.saver.(phase := Failed))
    case Some(d) => s.(db := d, saver := s.saver.(pending := s.saver.pending[n..], txSize := n))
  }

  ghost function DeadlockStep<E>(s: Machine<E>): Machine<E> {
    s.(saver := s.saver.(txSize := (Min(s.saver.txSize, |s.saver.pending|) + 1) / 2))
  }

  ghost function IdleSaver<E>(phase: Phase): Saver<E> {
    Saver(phase, [], 0, None, [], [], 0, 0)
  }

  ghost function Apply<E>(s: Machine<E>, a: Step<E>): Machine<E>
    requires Enabled(s, a)
  {
    match a
    case Call(t, op) =>
      // findStore: an unknown facet answers at once, except that addFacet will create the store
      if op.key.facet in s.sh.stores || op.AddOp? then SetPc(s, t, Pinning(op)) else s
    case OpenStore(t) => s.(sh := s.sh.(stores := s.sh.stores + {PcOf(s, t).op.key.facet}))
    case PinHit(t) => SetPc(s, t, Locking(PcOf(s, t).op, IfPinned(s.sh, PcOf(s, t).op.key).value))
    case PinMiss(t) =>
      SetPc(s, t, Loading(PcOf(s, t).op)).(sh := s.sh.(cache := s.sh.cache[PcOf(s, t).op.key := Placeholder(t)]))
    case LoadRead(t) => SetPc(s, t, Loaded(PcOf(s, t).op, Get(s.db, PcOf(s, t).op.key)))
    case LoadFail(t) => SetPc(s, t, Idle).(sh := s.sh.(cache := s.sh.cache - {PcOf(s, t).op.key}))
    case Install(t, e, oid) => InstallStep(s, t, e, oid)
    case Section(t) => SectionStep(s, t)
    case ReleaseCall(t, k) =>
      (match IfPinned(s.sh, k)
       case None => s
       case Some(e) => if e in s.sh.elems then s.(sh := ReleaseSection(s.sh, e)) else s)
    case HasCall(t, k) =>
      if k.facet in s.sh.stores && IfPinned(s.sh, k).None? then SetPc(s, t, Missed(k)) else s
    case HasRead(t) => SetPc(s, t, Idle)
    case SetSize(t, n) => s.(sh := SetSizeSection(s.sh, n))
    case Mutate(t, v) =>
      var e, oid := PcOf(s, t).e, PcOf(s, t).oid;
      var x := s.sh.elems[e];
      if x.servant.Some? && x.servant.value.oid == oid
      then s.(sh := With(s.sh, e, x.(servant := Some(Servant(oid, v)))))
      else s
    case FinishCall(t) => FinishFirstStep(s, t)
    case FinishLock(t) => SetPc(s, t, Idle).(sh := FinishSecond(s.sh, PcOf(s, t).e, PcOf(s, t).enqueue))
    case SaveNowCall(t) => SetPc(s, t, SavingNow).(sh := s.sh.(waiters := s.sh.waiters + [t]))
    case SaveNowReturn(t) => SetPc(s, t, Idle)
    case Swap => SwapStep(s)
    case StreamOne(acquired) => StreamOneStep(s, acquired)
    case StreamLocked => StreamLockedStep(s)
    case EndStreaming => s.(saver := s.saver.(phase := Writing, txSize := Min(|s.saver.pending|, s.maxTx)))
    case Commit => CommitStep(s)
    case Deadlock => DeadlockStep(s)
    case Release => s.(sh := ReleasePhase(s.sh, s.saver.batch, s.saver.dead, s.saver.snap), saver := IdleSaver(Waiting))
    case Exit => s.(saver := IdleSaver(Exited))
    case DeactivateCall(t) => SetPc(s, t, Deactivating).(gate := Draining(t))
    case DeactivateSave(t) => s.(gate := Saving(t), sh := s.sh.(waiters := s.sh.waiters + [t]))
    case DeactivateStop(t) => s.(gate := Stopping(t), sh := EvictIdle(s.sh.(limit := 0)))
    case DeactivateDone(t) => SetPc(s, t, Idle).(gate := Closed)
  }

  /** The state of the object at `k` as clients see it: from its element if pinned, else from the database. */
  ghost function View<E>(s: Machine<E>, k: Key): Option<string> {
    match IfPinned(s.sh, k)
    case None => Get(s.db, k)
    case Some(e) =>
      if e in s.sh.elems && Present(s.sh.elems[e].status) && s.sh.elems[e].servant.Some?
      then Some(s.sh.elems[e].servant.value.state) else None
  }

  /** What the client sees of a step: the result the code computes in it. */
  ghost function EventOf<E>(s: Machine<E>, a: Step<E>): Event
    requires Enabled(s, a)
  {
    match a
    case Call(t, op) =>
      if op.key.facet in s.sh.stores || op.AddOp? then Silent else NotFound(op)
    case Install(t, e, oid) =>
      var op := PcOf(s, t).op;
      if PcOf(s, t).record.None? && !op.AddOp? && !op.CreateOp? then NotFound(op) else Silent
    case Section(t) => SectionEvent(PcOf(s, t).op, s.sh.elems[PcOf(s, t).e])
    case ReleaseCall(t, k) =>
      (match IfPinned(s.sh, k)
       case None => Released(k, false)
       case Some(e) => Released(k, e in s.sh.elems && s.sh.elems[e].keep > 0))
    case HasCall(t, k) =>
      if k.facet !in s.sh.stores then Answered(k, false)
      else (match IfPinned(s.sh, k)
            case None => Silent
            case Some(e) => Answered(k, e in s.sh.elems && Present(s.sh.elems[e].status)))
    case Mutate(t, v) =>
      var x := s.sh.elems[PcOf(s, t).e];
      if x.servant.Some? && x.servant.value.oid == PcOf(s, t).oid then Updated(x.key, v) else Silent
    case _ => Silent
  }

  /** The answer of an operation that found no element. */
  ghost function NotFound(op: Op): Event {
    match op
    case RemoveOp(k) => Removed(k, None)
    case KeepOp(k) => Kept(k, false)
    case LocateOp(k, _) => Located(k, None)
    case AddOp(_, _) => Silent
    case CreateOp(_, _) => Silent
  }

  ghost function SectionEvent(op: Op, x: Elem): Event {
    if x.stale then Silent
    else match op
      case AddOp(k, sv) => Added(k, sv.state, !Present(x.status))
      case CreateOp(k, sv) => CreatedOrUpdated(k, sv.state)
      case RemoveOp(k) => Removed(k, StateIn(x))
      case KeepOp(k) => Kept(k, Present(x.status))
      case LocateOp(k, _) => Located(k, StateIn(x))
  }

  ghost function StateIn(x: Elem): Option<string> {
    if Present(x.status) && x.servant.Some? then Some(x.servant.value.state) else None
  }
}
