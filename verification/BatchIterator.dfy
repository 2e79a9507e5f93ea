/**
 The evictor iterator: it reads the keys of a store in batches, closes its cursor between batches
 and resumes by key, while other threads add and delete records and any read may report a deadlock.
 */
module BatchIterator {
  import opened EvictorTypes
  import opened ByteStrings

  type DbKey = seq<byte>

  /** What one database operation of the iterator meets: a deadlock, or the keys of that moment, in order. */
  datatype Moment = Deadlock | Keys(keys: seq<DbKey>)

  /** The moments of an iteration, in order; deadlocks stop eventually, and the last keys then stay. */
  datatype World = World(moments: seq<Moment>, last: seq<DbKey>)

  function MomentAt(w: World, i: nat): Moment {
    if i < |w.moments| then w.moments[i] else Keys(w.last)
  }

  /** A stored key starts with the size of a name, and names are not empty (checkIdentity). */
  ghost predicate Stored(keys: seq<DbKey>) {
    Increasing(keys) && forall k: DbKey | k in keys :: k != [] && k[0] != 0
  }

  ghost predicate WorldOK(w: World) {
    Stored(w.last) && forall i :: 0 <= i < |w.moments| && w.moments[i].Keys? ==> Stored(w.moments[i].keys)
  }

  /** `k` is in the store during the whole iteration. */
  ghost predicate AlwaysThere(w: World, k: DbKey) {
    k in w.last && forall i :: 0 <= i < |w.moments| && w.moments[i].Keys? ==> k in w.moments[i].keys
  }

  ghost predicate SometimeThere(w: World, k: DbKey) {
    k in w.last || exists i :: 0 <= i < |w.moments| && w.moments[i].Keys? && k in w.moments[i].keys
  }

  /** Where a cursor read looks: anywhere (DB_NEXT on a new cursor), from a key on (DB_SET_RANGE), or past one (DB_NEXT). */
  datatype Bound = Anywhere | From(key: DbKey) | Past(key: DbKey)

  predicate Above(k: DbKey, b: Bound) {
    match b
    case Anywhere => true
    case From(x) => Le(x, k)
    case Past(x) => Lt(x, k)
  }

  /** Dbc::get: the first key there, or none. */
  function FirstAbove(keys: seq<DbKey>, b: Bound): (r: Option<DbKey>)
    requires Increasing(keys)
    ensures r.None? ==> forall k | k in keys :: !Above(k, b)
    ensures r.Some? ==> r.value in keys && Above(r.value, b) && forall k | k in keys && Above(k, b) :: Le(r.value, k)
  {
    if keys == [] then None
    else if Above(keys[0], b) then
      assert forall k | k in keys :: Le(keys[0], k);
      Some(keys[0])
    else
      assert forall k | k in keys :: k == keys[0] || k in keys[1..];
      FirstAbove(keys[1..], b)
  }

  function Zeros(n: nat): DbKey {
    seq(n, i => 0 as byte)
  }

  /** The key a new iterator starts with. */
  const ZEROS: DbKey := Zeros(1024)

  /**
   A first batch that is retried starts from that key instead of from the first record: it skips
   exactly the keys of fewer than 1024 bytes that are all zero. The identity with an empty name and an
   empty category has such a key, which is why the evictor's rule against empty names is needed here.
   */
  lemma {:induction false} SkippedByRetry(n: nat, k: DbKey)
    ensures !Le(Zeros(n), k) <==> |k| < n && forall i :: 0 <= i < |k| ==> k[i] == 0
  {
    LtTotal(Zeros(n), k);
    LtIrreflexive(k);
    if Lt(Zeros(n), k) && Lt(k, Zeros(n)) {
      LtTransitive(k, Zeros(n), k);
    }
    BelowZeros(n, k);
  }

  lemma {:induction false} BelowZeros(n: nat, k: DbKey)
    ensures Lt(k, Zeros(n)) <==> |k| < n && forall i :: 0 <= i < |k| ==> k[i] == 0
  {
    if n > 0 && k != [] {
      BelowZeros(n - 1, k[1..]);
      assert Zeros(n)[1..] == Zeros(n - 1);
      assert k == [k[0]] + k[1..];
    }
  }

  class EvictorIterator {
    const world: World
    const batchSize: nat
    var now: nat                       // operations done so far
    var key: DbKey
    var more: bool
    var initialized: bool
    var batch: seq<DbKey>
    var position: nat                  // of the next key to hand out
    ghost var read: seq<DbKey>         // all keys of all batches so far
    ghost var handed: seq<DbKey>       // all keys that next() has returned

    constructor (world: World, batchSize: nat)
      requires WorldOK(world)
      ensures Valid() && handed == [] && this.world == world && this.batchSize == batchSize
    {
      this.world, this.batchSize, now := world, batchSize, 0;
      key, more, initialized, batch, position := ZEROS, true, false, [], 0;
      read, handed := [], [];
    }

    /** Whatever is always there and not read yet lies from `key` on, and what has been read lies before. */
    ghost predicate Valid()
      reads this
    {
      && WorldOK(world)
      && Increasing(read)
      && (forall k | k in read :: SometimeThere(world, k))
      && (if more then Resumable(key, initialized) else forall k | AlwaysThere(world, k) :: k in read)
      && position <= |batch| <= |read|
      && batch == read[|read| - |batch|..]
      && handed == read[..|read| - (|batch| - position)]
    }

    /** A batch may start from `first`. */
    ghost predicate Resumable(first: DbKey, started: bool)
      reads this
    {
      && (forall k | AlwaysThere(world, k) :: k in read || (started ==> Le(first, k)))
      && (read == [] || (started && forall k | k in read :: Lt(k, first)))
      && (read == [] && !started ==> first == ZEROS)
    }

    /** The scan of a batch stands at `bound`: everything always there is read or lies above it, and everything read lies below what is above it. */
    ghost predicate Scanned(bound: Bound, seen: seq<DbKey>)
      reads this
    {
      && Increasing(seen)
      && (forall k | k in seen :: SometimeThere(world, k))
      && (forall k | AlwaysThere(world, k) :: k in seen || Above(k, bound))
      && (forall x, k | x in seen && Above(k, bound) :: Lt(x, k))
    }

    /** The keys of the moment, read at `bound`, carry the scan on. */
    lemma ScanNext(bound: Bound, seen: seq<DbKey>, keys: seq<DbKey>)
      requires WorldOK(world) && Scanned(bound, seen) && MomentAt(world, now) == Keys(keys)
      ensures Increasing(keys)
      ensures match FirstAbove(keys, bound)
        case None => forall k | AlwaysThere(world, k) :: k in seen
        case Some(c) =>
          && Scanned(Past(c), seen + [c])
          && (forall k | AlwaysThere(world, k) :: k in seen || Le(c, k))
          && (forall x | x in seen :: Lt(x, c))
    {
      match FirstAbove(keys, bound)
      case None =>
      case Some(c) =>
        forall x, k | x in seen + [c] && Above(k, Past(c)) ensures Lt(x, k) {
          if x in seen { LtTransitive(x, c, k); }
        }
        forall k | AlwaysThere(world, k) ensures k in seen || Le(c, k) {
          assert k in keys;
        }
    }

    lemma ResumeScans(first: DbKey, started: bool)
      requires Resumable(first, started) && Increasing(read) && forall k | k in read :: SometimeThere(world, k)
      ensures Scanned(if started then From(first) else Anywhere, read)
    {
      forall x, k | x in read && Le(first, k) ensures Lt(x, k) {
        if first != k { LtTransitive(x, first, k); }
      }
    }

    /** Starting over from the key the batch began with; at the very beginning that key is below every stored one. */
    lemma RetryResumes(first: DbKey, started: bool)
      requires WorldOK(world) && Resumable(first, started)
      ensures Resumable(first, true)
    {
      if !started {
        forall k | AlwaysThere(world, k) ensures Le(first, k) {
          SkippedByRetry(1024, k);
        }
      }
    }

    /** What a finished attempt has achieved, with `batch` not yet added to `read`. */
    ghost predicate BatchRead()
      reads this
    {
      && Increasing(read + batch) && |batch| <= batchSize
      && (forall k | k in read + batch :: SometimeThere(world, k))
      && (if more then
            && |batch| == batchSize && initialized
            && (forall x | x in read + batch :: Lt(x, key))
            && (forall k | AlwaysThere(world, k) :: k in read + batch || Le(key, k))
          else forall k | AlwaysThere(world, k) :: k in read + batch)
    }

    /** One read of the cursor; afterwards the batch goes on from a new bound, or is complete, or a deadlock struck. */
    method ReadOne(bound: Bound) returns (deadlock: bool, done: bool)
      requires WorldOK(world) && Scanned(bound, read + batch) && |batch| <= batchSize
      modifies this`now, this`key, this`more, this`initialized, this`batch
      ensures now == old(now) + 1 && (deadlock ==> now <= |world.moments|)
      ensures (old(initialized) ==> initialized) && old(|batch|) <= |batch|
      ensures !deadlock && !done ==> Scanned(Past(key), read + batch) && old(|batch|) < |batch| <= batchSize
      ensures !deadlock && done ==> BatchRead()
    {
      var moment := MomentAt(world, now);
      match moment {
        case Deadlock =>
          now := now + 1;
          return true, true;
        case Keys(keys) =>
          ScanNext(bound, read + batch, keys);
          now := now + 1;
          var found := FirstAbove(keys, bound);
          more := found.Some?;
          deadlock, done := false, true;
          if more {
            key, initialized := found.value, true;
            if |batch| < batchSize {
              assert read + (batch + [key]) == (read + batch) + [key];
              batch, done := batch + [key], false;
            }
          }
      }
    }

    /** One attempt at a batch, on one cursor; true if a deadlock ended it. */
    method TryBatch(firstKey: DbKey) returns (deadlock: bool)
      requires WorldOK(world) && Resumable(firstKey, initialized)
      requires Increasing(read) && forall k | k in read :: SometimeThere(world, k)
      modifies this`now, this`key, this`more, this`initialized, this`batch
      ensures now > old(now)
      ensures deadlock ==> now <= |world.moments| && Resumable(firstKey, initialized)
      ensures !deadlock ==> BatchRead()
    {
      batch := [];
      var bound := if initialized then From(firstKey) else Anywhere;
      ResumeScans(firstKey, initialized);
      RetryResumes(firstKey, initialized);
      assert read + batch == read;
      now := now + 1;
      if MomentAt(world, now - 1).Deadlock? {   // opening the cursor
        return true;
      }
      var done := false;
      while !done   // do ... while(!done && _more)
        invariant now > old(now) && |batch| <= batchSize
        invariant Resumable(firstKey, initialized) && Resumable(firstKey, true)
        invariant if done then BatchRead() else Scanned(bound, read + batch)
        decreases batchSize - |batch|, !done
      {
        deadlock, done := ReadOne(bound);
        if deadlock {
          return true;
        }
        bound := Past(key);
      }
      now := now + 1;
      deadlock := MomentAt(world, now - 1).Deadlock?;   // closing the cursor
    }

    /** Attempts go on from `first` while the last one met a deadlock, and otherwise have read a batch. */
    ghost predicate Trying(first: DbKey, again: bool)
      reads this
    {
      && WorldOK(world) && position == 0 && handed == read
      && Increasing(read) && (forall k | k in read :: SometimeThere(world, k))
      && (if again then Resumable(first, initialized) else BatchRead())
    }

    /** The batch that has been read is ready to be handed out. */
    method Accept(ghost first: DbKey)
      requires Trying(first, false)
      modifies this`read
      ensures Valid() && read == old(read) + batch
    {
      read := read + batch;
      assert read[..|read| - |batch|] == old(read) && read[|read| - |batch|..] == batch;
    }

    /** nextBatch. */
    method NextBatch()
      requires Valid() && position == |batch|
      modifies this
      ensures Valid() && handed == old(handed) && position == 0
      ensures read == old(read) + batch && |batch| <= batchSize
      ensures batch == [] ==> !more || batchSize == 0
    {
      assert read[..|read| - 0] == read;
      batch, position := [], 0;
      if !more {
        return;
      }
      var firstKey := key;
      var again := true;
      while again   // for(;;), left by a batch without a deadlock
        invariant read == old(read) && handed == old(handed) && Trying(firstKey, again)
        decreases if now < |world.moments| then |world.moments| - now else 0, again
      {
        again := TryBatch(firstKey);
        if again {
          key := firstKey;
        }
      }
      Accept(firstKey);
    }

    method HasNext() returns (r: bool)
      requires Valid()
      modifies this
      ensures Valid() && handed == old(handed) && r == (position < |batch|)
      ensures !r && batchSize > 0 ==> forall k | AlwaysThere(world, k) :: k in handed
    {
      if position == |batch| {
        NextBatch();
      }
      r := position != |batch|;
    }

    lemma HandNext()
      requires Valid() && position < |batch|
      ensures SometimeThere(world, batch[position])
      ensures handed + [batch[position]] == read[..|read| - (|batch| - position) + 1]
    {
      assert batch[position] == read[|read| - (|batch| - position)];
      assert batch[position] in read;
    }

    method Advance()
      requires Valid() && position < |batch|
      modifies this`position, this`handed
      ensures Valid() && handed == old(handed) + [batch[old(position)]]
    {
      HandNext();
      handed := handed + [batch[position]];
      position := position + 1;
    }

    /** next; None for NoSuchElementException. */
    method Next() returns (r: Option<DbKey>)
      requires Valid()
      modifies this
      ensures Valid()
      ensures r.Some? ==> handed == old(handed) + [r.value] && SometimeThere(world, r.value)
      ensures r.None? ==> handed == old(handed) && (batchSize > 0 ==> forall k | AlwaysThere(world, k) :: k in handed)
    {
      var available := HasNext();
      if !available {
        return None;
      }
      HandNext();
      r := Some(batch[position]);
      Advance();
    }

    /** The keys handed out are strictly increasing, and each was in the store at some moment. */
    lemma HandedOut()
      requires Valid()
      ensures Increasing(handed) && forall k | k in handed :: SometimeThere(world, k)
    {
    }
  }

  /**
   A whole iteration: next() until it has no more. Every key that is there throughout comes back,
   and, the keys being strictly increasing, exactly once.
   */
  method Iterate(world: World, batchSize: nat, limit: nat) returns (keys: seq<DbKey>, complete: bool)
    requires WorldOK(world) && batchSize > 0
    ensures Increasing(keys) && forall k | k in keys :: SometimeThere(world, k)
    ensures complete ==> forall k | AlwaysThere(world, k) :: k in keys
    ensures !complete ==> |keys| == limit
  {
    var it := new EvictorIterator(world, batchSize);
    keys, complete := [], false;
    while |keys| < limit && !complete
      invariant it.Valid() && it.handed == keys && |keys| <= limit && it.world == world && it.batchSize == batchSize
      invariant complete ==> forall k | AlwaysThere(world, k) :: k in keys
      invariant fresh(it)
      decreases limit - |keys|, !complete
    {
      var k := it.Next();
      match k {
        case None => complete := true;
        case Some(key) => keys := keys + [key];
      }
    }
    it.HandedOut();
  }
}
