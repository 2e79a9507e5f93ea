/**
 The part of run() that writes the streamed objects: transactions of at most `maxTxSize` objects,
 halved on each deadlock. A deadlock is a decision of the database, so the attempts that are
 struck are given by a script: attempt `a` aborts after `strikes[a]` objects, if its transaction gets that far.
 */
module EvictorBatches {
  import opened EvictorTypes
  import opened EvictorMachine
  import opened EvictorInvariant
  import opened EvictorPreservation

  datatype Outcome = Committed | Deadlocked | Refused

  ghost function Sum(l: seq<nat>): nat {
    if l == [] then 0 else Sum(l[..|l| - 1]) + l[|l| - 1]
  }

  /** Once a prefix of the records cannot be saved, nothing longer can. */
  lemma {:induction false} FailsForGood<E>(db: map<Key, string>, rs: seq<Rec<E>>, n: nat)
    requires n <= |rs| && SaveAll(db, rs[..n]).None?
    ensures SaveAll(db, rs).None?
  {
    if n < |rs| {
      assert rs[..|rs| - 1][..n] == rs[..n];
      FailsForGood(db, rs[..|rs| - 1], n);
    } else {
      assert rs[..n] == rs;
    }
  }

  /** Saving `a` and then `b` is saving `a + b`, errors included. */
  lemma {:induction false} SaveInTwo<E>(db: map<Key, string>, a: seq<Rec<E>>, b: seq<Rec<E>>)
    requires SaveAll(db, a).Some?
    ensures SaveAll(db, a + b) == SaveAll(SaveAll(db, a).value, b)
  {
    if b == [] {
      assert a + b == a;
    } else {
      assert (a + b)[..|a + b| - 1] == a + b[..|b| - 1];
      SaveInTwo(db, a, b[..|b| - 1]);
    }
  }

  /** No batch is empty, too large, or larger than one before it or smaller than the next to come. */
  ghost predicate Sized(sizes: seq<nat>, txSize: nat, maxTxSize: nat) {
    && (forall i :: 0 <= i < |sizes| ==> 1 <= sizes[i] <= maxTxSize && txSize <= sizes[i])
    && forall i, j :: 0 <= i < j < |sizes| ==> sizes[i] >= sizes[j]
  }

  /** Without a deadlock all batches but the last are as large as they may be; `left` objects are still queued. */
  ghost predicate Full(sizes: seq<nat>, txSize: nat, maxTxSize: nat, left: nat) {
    && (left > 0 ==> txSize >= Min(left, maxTxSize))
    && forall i :: 0 <= i < |sizes| && (i < |sizes| - 1 || left > 0) ==> sizes[i] == maxTxSize
  }

  lemma OneMoreSized(sizes: seq<nat>, txSize: nat, maxTxSize: nat, left: nat)
    requires Sized(sizes, txSize, maxTxSize) && left > 0 && 1 <= txSize <= maxTxSize
    ensures var n := Min(txSize, left);
      && Sized(sizes + [n], n, maxTxSize)
      && (Full(sizes, txSize, maxTxSize, left) ==> Full(sizes + [n], n, maxTxSize, left - n))
  {
  }

  /** Of the records `rs` the first `n` have gone into `db0`, which made it `db`; `left` are the others. */
  ghost predicate WrittenIn<E>(db0: map<Key, string>, rs: seq<Rec<E>>, n: nat, db: map<Key, string>, left: seq<Rec<E>>) {
    n <= |rs| && left == rs[n..] && SaveAll(db0, rs[..n]) == Some(db)
  }

  ghost predicate UnderwayIn<E>(db0: map<Key, string>, rs: seq<Rec<E>>, sizes: seq<nat>, txSize: nat, maxTxSize: nat,
                                db: map<Key, string>, left: seq<Rec<E>>) {
    && WrittenIn(db0, rs, Sum(sizes), db, left)
    && (left != [] ==> 1 <= txSize) && txSize <= maxTxSize
    && Sized(sizes, txSize, maxTxSize)
  }

  /** A batch of `n` is committed. */
  lemma CommittedUnderway<E>(db0: map<Key, string>, rs: seq<Rec<E>>, sizes: seq<nat>, txSize: nat, maxTxSize: nat,
                             db: map<Key, string>, left: seq<Rec<E>>, n: nat, db': map<Key, string>)
    requires UnderwayIn(db0, rs, sizes, txSize, maxTxSize, db, left) && left != []
    requires n == Min(txSize, |left|) && Some(db') == SaveAll(db, left[..n])
    ensures UnderwayIn(db0, rs, sizes + [n], n, maxTxSize, db', left[n..])
    ensures Full(sizes, txSize, maxTxSize, |left|) ==> Full(sizes + [n], n, maxTxSize, |left[n..]|)
  {
    WrittenSnoc(db0, rs, sizes, db, left, n, db');
    OneMoreSized(sizes, txSize, maxTxSize, |left|);
  }

  /** The batch is made smaller, but not empty. */
  lemma SmallerUnderway<E>(db0: map<Key, string>, rs: seq<Rec<E>>, sizes: seq<nat>, txSize: nat, maxTxSize: nat,
                           db: map<Key, string>, left: seq<Rec<E>>, smaller: nat)
    requires UnderwayIn(db0, rs, sizes, txSize, maxTxSize, db, left) && 1 <= smaller <= txSize
    ensures UnderwayIn(db0, rs, sizes, smaller, maxTxSize, db, left)
  {
  }

  class StreamedQueue<E> {
    var db: map<Key, string>
    var queue: seq<Rec<E>>

    constructor (db: map<Key, string>, queue: seq<Rec<E>>)
      ensures this.db == db && this.queue == queue
    {
      this.db, this.queue := db, queue;
    }

    /** One transaction over the first `txSize` objects. */
    method WriteBatch(txSize: nat, strike: Option<nat>) returns (r: Outcome)
      requires txSize <= |queue|
      modifies this
      ensures r.Committed? ==> Some(db) == SaveAll(old(db), old(queue)[..txSize]) && queue == old(queue)[txSize..]
      ensures !r.Committed? ==> db == old(db) && queue == old(queue)
      ensures r.Deadlocked? <==> strike.Some? && strike.value <= txSize && SaveAll(old(db), old(queue)[..strike.value]).Some?
      ensures r.Refused? ==> SaveAll(old(db), old(queue)[..txSize]).None?
    {
      var tx := db;
      var i := 0;
      while i < txSize
        invariant i <= txSize && db == old(db) && queue == old(queue)
        invariant SaveAll(db, queue[..i]) == Some(tx)
        invariant strike.Some? ==> i <= strike.value
      {
        if strike == Some(i) {
          return Deadlocked;
        }
        assert queue[..i + 1][..i] == queue[..i];
        match Save(tx, queue[i]) {
          case None =>
            assert queue[..txSize][..i + 1] == queue[..i + 1];
            FailsForGood(db, queue[..txSize], i + 1);
            if strike.Some? && strike.value <= txSize {
              assert queue[..strike.value][..i + 1] == queue[..i + 1];
              FailsForGood(db, queue[..strike.value], i + 1);
            }
            return Refused;
          case Some(d) =>
            tx := d;
        }
        i := i + 1;
      }
      if strike == Some(txSize) {
        return Deadlocked;   // at the commit
      }
      db := tx;
      queue := queue[txSize..];
      r := Committed;
    }

    /** The first `n` of the records `rs` are in the database, and the others are still queued. */
    ghost predicate Written(db0: map<Key, string>, rs: seq<Rec<E>>, n: nat)
      reads this
    {
      WrittenIn(db0, rs, n, db, queue)
    }

    /** Batches of the given sizes, none empty or too large, have been committed, and the next is to have `txSize` objects. */
    ghost predicate Underway(db0: map<Key, string>, rs: seq<Rec<E>>, sizes: seq<nat>, txSize: nat, maxTxSize: nat)
      reads this
    {
      UnderwayIn(db0, rs, sizes, txSize, maxTxSize, db, queue)
    }

    /** One attempt: a batch is committed, or its size is halved. */
    method Attempt(txSize: nat, strike: Option<nat>, sizes: seq<nat>, maxTxSize: nat, ghost db0: map<Key, string>, ghost rs: seq<Rec<E>>)
      returns (r: Outcome, txSize': nat, sizes': seq<nat>)
      requires queue != [] && Underway(db0, rs, sizes, txSize, maxTxSize)
      modifies this
      ensures Underway(db0, rs, sizes', txSize', maxTxSize)
      ensures r.Committed? ==> sizes' == sizes + [txSize'] && txSize' == Min(txSize, |old(queue)|) && |queue| == |old(queue)| - txSize'
      ensures !r.Committed? ==> queue == old(queue) && sizes' == sizes
      ensures r.Deadlocked? ==> strike.Some? && txSize' == (Min(txSize, |queue|) + 1) / 2
      ensures r.Refused? ==> SaveAll(db0, rs).None?
      ensures strike.None? && Full(sizes, txSize, maxTxSize, |old(queue)|) && !r.Refused? ==> Full(sizes', txSize', maxTxSize, |queue|)
    {
      txSize', sizes' := txSize, sizes;
      if txSize' > |queue| {
        txSize' := |queue|;
      }
      SmallerUnderway(db0, rs, sizes, txSize, maxTxSize, db, queue, txSize');
      ghost var before := db;
      r := WriteBatch(txSize', strike);
      match r {
        case Committed =>
          CommittedUnderway(db0, rs, sizes, txSize, maxTxSize, before, old(queue), txSize', db);
          sizes' := sizes + [txSize'];
        case Deadlocked =>
          SmallerUnderway(db0, rs, sizes, txSize', maxTxSize, db, queue, (txSize' + 1) / 2);
          txSize' := (txSize' + 1) / 2;
        case Refused =>
          WriteFailed(db0, rs, Sum(sizes), db, txSize');
      }
    }

    /** The inner loop: attempts until the queue is empty. `tryAgain` says whether any met a deadlock. */
    method WriteQueue(start: nat, strikes: seq<nat>, txSize: nat, sizes: seq<nat>, maxTxSize: nat, ghost db0: map<Key, string>, ghost rs: seq<Rec<E>>)
      returns (ok: bool, tryAgain: bool, attempt: nat, txSize': nat, sizes': seq<nat>)
      requires Underway(db0, rs, sizes, txSize, maxTxSize)
      modifies this
      ensures Underway(db0, rs, sizes', txSize', maxTxSize)
      ensures if ok then queue == [] else SaveAll(db0, rs).None?
      ensures old(queue) == [] ==> ok && !tryAgain
      ensures strikes == [] && Full(sizes, txSize, maxTxSize, |old(queue)|) && ok ==> Full(sizes', txSize', maxTxSize, |queue|)
    {
      ok, tryAgain, attempt, txSize', sizes' := true, false, start, txSize, sizes;
      while queue != []
        invariant Underway(db0, rs, sizes', txSize', maxTxSize)
        invariant old(queue) == [] ==> queue == [] && !tryAgain
        invariant strikes == [] && Full(sizes, txSize, maxTxSize, |old(queue)|) ==> Full(sizes', txSize', maxTxSize, |queue|)
        decreases |queue|, |strikes| - attempt
      {
        var strike := if attempt < |strikes| then Some(strikes[attempt]) else None;
        attempt := attempt + 1;
        var r;
        r, txSize', sizes' := Attempt(txSize', strike, sizes', maxTxSize, db0, rs);
        if r.Refused? {
          ok := false;
          return;
        }
        tryAgain := tryAgain || r.Deadlocked?;
      }
    }

    /**
     All batches. The database ends as if the queue had been written in one go, or, when an
     object cannot be saved, as if exactly the objects of the committed transactions had been.
     */
    method WriteAll(maxTxSize: nat, strikes: seq<nat>) returns (ok: bool, sizes: seq<nat>)
      requires maxTxSize >= 1
      modifies this
      ensures ok ==> SaveAll(old(db), old(queue)) == Some(db) && queue == []
      ensures !ok ==> SaveAll(old(db), old(queue)).None?
      ensures Sum(sizes) <= |old(queue)| && queue == old(queue)[Sum(sizes)..]
      ensures SaveAll(old(db), old(queue)[..Sum(sizes)]) == Some(db)
      ensures Sized(sizes, 0, maxTxSize)
      ensures ok && strikes == [] ==> forall i :: 0 <= i < |sizes| - 1 ==> sizes[i] == maxTxSize
    {
      ghost var db0, rs := db, queue;
      var txSize: nat := if |queue| > maxTxSize then maxTxSize else |queue|;
      NothingWritten(db0, rs);
      ok, sizes := WritePasses(strikes, txSize, maxTxSize, db0, rs);
      if ok {
        EverythingWritten(db0, rs, Sum(sizes), db);
      }
    }

    /** The outer loop: passes until one meets no deadlock. */
    method WritePasses(strikes: seq<nat>, start: nat, maxTxSize: nat, ghost db0: map<Key, string>, ghost rs: seq<Rec<E>>)
      returns (ok: bool, sizes: seq<nat>)
      requires Underway(db0, rs, [], start, maxTxSize)
      modifies this
      ensures Written(db0, rs, Sum(sizes)) && Sized(sizes, 0, maxTxSize)
      ensures if ok then queue == [] else SaveAll(db0, rs).None?
      ensures strikes == [] && Full([], start, maxTxSize, |old(queue)|) && ok ==> Full(sizes, 0, maxTxSize, 0)
    {
      ghost var smooth := strikes == [] && Full([], start, maxTxSize, |queue|);
      var tryAgain, attempt, txSize;
      ok, tryAgain, attempt, txSize, sizes := WriteQueue(0, strikes, start, [], maxTxSize, db0, rs);   // do
      while ok && tryAgain                                                                             // ... while(tryAgain)
        invariant Underway(db0, rs, sizes, txSize, maxTxSize)
        invariant if ok then queue == [] else SaveAll(db0, rs).None?
        invariant smooth && ok ==> Full(sizes, txSize, maxTxSize, |queue|)
        decreases tryAgain
      {
        ok, tryAgain, attempt, txSize, sizes := WriteQueue(attempt, strikes, txSize, sizes, maxTxSize, db0, rs);
      }
      PassesDone(db0, rs, sizes, txSize, maxTxSize, db, queue);
    }
  }

  lemma PassesDone<E>(db0: map<Key, string>, rs: seq<Rec<E>>, sizes: seq<nat>, txSize: nat, maxTxSize: nat, db: map<Key, string>, left: seq<Rec<E>>)
    requires UnderwayIn(db0, rs, sizes, txSize, maxTxSize, db, left)
    ensures WrittenIn(db0, rs, Sum(sizes), db, left) && Sized(sizes, 0, maxTxSize)
    ensures left == [] && Full(sizes, txSize, maxTxSize, |left|) ==> Full(sizes, 0, maxTxSize, 0)
  {
  }

  lemma NothingWritten<E>(db: map<Key, string>, rs: seq<Rec<E>>)
    ensures WrittenIn(db, rs, Sum([]), db, rs)
  {
    assert Sum([]) == 0;
    assert rs[0..] == rs;
  }

  lemma EverythingWritten<E>(db0: map<Key, string>, rs: seq<Rec<E>>, n: nat, db: map<Key, string>)
    requires WrittenIn(db0, rs, n, db, [])
    ensures SaveAll(db0, rs) == Some(db)
  {
    assert rs[..n] == rs;
  }

  lemma SumSnoc(l: seq<nat>, n: nat)
    ensures Sum(l + [n]) == Sum(l) + n
  {
    assert (l + [n])[..|l|] == l;
  }

  lemma WrittenMore<E>(db0: map<Key, string>, rs: seq<Rec<E>>, n: nat, db1: map<Key, string>, k: nat)
    requires n + k <= |rs| && SaveAll(db0, rs[..n]) == Some(db1)
    ensures SaveAll(db0, rs[..n + k]) == SaveAll(db1, rs[n..][..k])
    ensures rs[n..][k..] == rs[n + k..]
  {
    assert rs[..n + k] == rs[..n] + rs[n..][..k];
    SaveInTwo(db0, rs[..n], rs[n..][..k]);
  }

  lemma WrittenSnoc<E>(db0: map<Key, string>, rs: seq<Rec<E>>, sizes: seq<nat>, db1: map<Key, string>, left: seq<Rec<E>>, k: nat, db2: map<Key, string>)
    requires WrittenIn(db0, rs, Sum(sizes), db1, left) && k <= |left| && SaveAll(db1, left[..k]) == Some(db2)
    ensures WrittenIn(db0, rs, Sum(sizes + [k]), db2, left[k..])
  {
    SumSnoc(sizes, k);
    WrittenMore(db0, rs, Sum(sizes), db1, k);
  }

  lemma WriteFailed<E>(db0: map<Key, string>, rs: seq<Rec<E>>, n: nat, db1: map<Key, string>, k: nat)
    requires n + k <= |rs| && SaveAll(db0, rs[..n]) == Some(db1) && SaveAll(db1, rs[n..][..k]).None?
    ensures SaveAll(db0, rs).None?
  {
    WrittenMore(db0, rs, n, db1, k);
    FailsForGood(db0, rs, n + k);
  }

  /** In a state of the evictor the writes succeed, and the database becomes the projection the invariant speaks about. */
  lemma BatchesReachDisk<E>(s: Machine<E>, db': map<Key, string>)
    requires Inv(s) && SaveAll(s.db, s.saver.pending) == Some(db')
    ensures db' == Disk(s)
  {
    SaveAllProject(s.db, s.saver.pending);
  }
}
