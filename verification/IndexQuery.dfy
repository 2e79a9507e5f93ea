/**
 An index of a store: a secondary database that lists, for each index key, the keys of the stored
 records that have it, in order. `indexKey` is what MapIndex::marshalKey computes from a record; None
 means that the record is not indexed.
 */
module IndexQuery {
  import opened EvictorTypes
  import opened ByteStrings
  import opened BatchIterator

  type Record = seq<byte>
  type Primary = map<DbKey, Record>
  type Secondary = map<DbKey, seq<DbKey>>

  function Duplicates(sec: Secondary, ik: DbKey): seq<DbKey> {
    if ik in sec then sec[ik] else []
  }

  /** The secondary lists exactly the records that have the key, each once and in the order of their keys. */
  ghost predicate InStep(primary: Primary, sec: Secondary, indexKey: Record -> Option<DbKey>) {
    && (forall ik :: Increasing(Duplicates(sec, ik)))
    && (forall ik, pk :: pk in Duplicates(sec, ik) <==> pk in primary && indexKey(primary[pk]) == Some(ik))
  }

  /** Place among sorted duplicates. */
  function InsertKey(l: seq<DbKey>, k: DbKey): (r: seq<DbKey>)
    ensures forall x :: x in r <==> x == k || x in l
  {
    if l == [] || Lt(k, l[0]) then [k] + l
    else if l[0] == k then l
    else
      var r := [l[0]] + InsertKey(l[1..], k);
      assert forall x :: x in l <==> x == l[0] || x in l[1..];
      r
  }

  lemma {:induction false} InsertIncreasing(l: seq<DbKey>, k: DbKey)
    requires Increasing(l)
    ensures Increasing(InsertKey(l, k))
  {
    if l != [] {
      LtTotal(k, l[0]);
      if Lt(k, l[0]) {
        forall j | 0 <= j < |l| ensures Lt(k, l[j]) {
          if j > 0 { LtTransitive(k, l[0], l[j]); }
        }
      } else if l[0] != k {
        InsertIncreasing(l[1..], k);
        var m := InsertKey(l[1..], k);
        forall j | 0 <= j < |m| ensures Lt(l[0], m[j]) {
          assert m[j] == k || m[j] in l[1..];
        }
      }
    }
  }

  lemma {:induction false} WithoutIncreasing(l: seq<DbKey>, k: DbKey)
    requires Increasing(l)
    ensures Increasing(Without(l, k))
  {
    if l != [] {
      WithoutIncreasing(l[1..], k);
      var m := Without(l[1..], k);
      forall j | 0 <= j < |m| ensures Lt(l[0], m[j]) {
        assert m[j] in l[1..];
      }
    }
  }

  function AddEntry(sec: Secondary, ik: Option<DbKey>, pk: DbKey): Secondary {
    if ik.None? then sec else sec[ik.value := InsertKey(Duplicates(sec, ik.value), pk)]
  }

  function RemoveEntry(sec: Secondary, ik: Option<DbKey>, pk: DbKey): Secondary {
    if ik.None? then sec else sec[ik.value := Without(Duplicates(sec, ik.value), pk)]
  }

  function OldKey(primary: Primary, indexKey: Record -> Option<DbKey>, pk: DbKey): Option<DbKey> {
    if pk in primary then indexKey(primary[pk]) else None
  }

  /** A delete in the primary takes the record's entry out of the secondary. */
  lemma DeleteInStep(primary: Primary, sec: Secondary, indexKey: Record -> Option<DbKey>, pk: DbKey)
    requires InStep(primary, sec, indexKey)
    ensures InStep(primary - {pk}, RemoveEntry(sec, OldKey(primary, indexKey, pk), pk), indexKey)
  {
    var sec' := RemoveEntry(sec, OldKey(primary, indexKey, pk), pk);
    forall ik ensures Increasing(Duplicates(sec', ik)) {
      WithoutIncreasing(Duplicates(sec, ik), pk);
    }
    forall ik, x ensures x in Duplicates(sec', ik) <==> x in primary - {pk} && indexKey(primary[x]) == Some(ik) {
      assert x in Duplicates(sec, ik) <==> x in primary && indexKey(primary[x]) == Some(ik);
    }
  }

  /** A put replaces the record's entry by one for its new index key. */
  lemma PutInStep(primary: Primary, sec: Secondary, indexKey: Record -> Option<DbKey>, pk: DbKey, r: Record)
    requires InStep(primary, sec, indexKey)
    ensures InStep(primary[pk := r], AddEntry(RemoveEntry(sec, OldKey(primary, indexKey, pk), pk), indexKey(r), pk), indexKey)
  {
    DeleteInStep(primary, sec, indexKey, pk);
    var p, s := primary - {pk}, RemoveEntry(sec, OldKey(primary, indexKey, pk), pk);
    var p', s' := primary[pk := r], AddEntry(s, indexKey(r), pk);
    forall ik ensures Increasing(Duplicates(s', ik)) {
      InsertIncreasing(Duplicates(s, ik), pk);
    }
    forall ik, x ensures x in Duplicates(s', ik) <==> x in p' && indexKey(p'[x]) == Some(ik) {
      assert x in Duplicates(s, ik) <==> x in p && indexKey(p[x]) == Some(ik);
    }
  }

  /** What a query with limit `firstN` returns of the matching keys; no limit if it is not positive. */
  function FirstOf(l: seq<DbKey>, firstN: int): seq<DbKey> {
    if firstN <= 0 || firstN >= |l| then l else l[..firstN]
  }

  /****** Queries ******/

  /**
   `found` answers a query with limit `firstN`: matching identities in order, at most as many as asked for;
   one that matches throughout is missing only if the limit was reached, and then it comes after all of them.
   */
  ghost predicate Answers(w: World, firstN: int, found: seq<DbKey>) {
    && Increasing(found)
    && (firstN <= 0 || |found| <= firstN)
    && (forall k | k in found :: SometimeThere(w, k))
    && (forall k | AlwaysThere(w, k) && k !in found :: 0 < firstN <= |found| && forall x | x in found :: Lt(x, k))
  }

  /**
   A query for one index key. The world says which records have that key at the moment of each
   cursor operation, or that the operation meets a deadlock.
   */
  class Query {
    const world: World
    const firstN: int
    var now: nat

    constructor (world: World, firstN: int)
      ensures this.world == world && this.firstN == firstN && now == 0
    {
      this.world, this.firstN, now := world, firstN, 0;
    }

    /** The cursor has passed `found` and everything before its last key. */
    ghost predicate Passed(found: seq<DbKey>) {
      && Increasing(found)
      && (forall k | k in found :: SometimeThere(world, k))
      && (forall k | AlwaysThere(world, k) && k !in found :: forall x | x in found :: Lt(x, k))
    }

    function Position(found: seq<DbKey>): Bound {
      if found == [] then Anywhere else Past(found[|found| - 1])
    }

    lemma PassNext(found: seq<DbKey>, i: nat)
      requires WorldOK(world) && Passed(found) && MomentAt(world, i).Keys?
      ensures Increasing(MomentAt(world, i).keys)
      ensures match FirstAbove(MomentAt(world, i).keys, Position(found))
        case None => forall k | AlwaysThere(world, k) :: k in found
        case Some(c) => Passed(found + [c])
    {
      var keys := MomentAt(world, i).keys;
      match FirstAbove(keys, Position(found))
      case None =>
        forall k | AlwaysThere(world, k) ensures k in found {
          assert k in keys;
        }
      case Some(c) =>
        var last := |found| - 1;
        forall j | 0 <= j < |found| ensures Lt(found[j], c) {
          if j < last { LtTransitive(found[j], found[last], c); }
        }
        forall k, x | AlwaysThere(world, k) && k !in found + [c] && x in found + [c] ensures Lt(x, k) {
          assert k in keys;
          if x == c {
            assert Above(k, Position(found));
          }
        }
    }

    /** How many of the keys that stay in the end the cursor has not passed. */
    ghost function Rest(found: seq<DbKey>): nat {
      |set k | k in world.last && Above(k, Position(found))|
    }

    lemma RestShrinks(found: seq<DbKey>, c: DbKey)
      requires c in world.last && Above(c, Position(found))
      ensures Rest(found + [c]) < Rest(found)
    {
      var a := set k | k in world.last && Above(k, Position(found));
      var b := set k | k in world.last && Above(k, Position(found + [c]));
      forall k | k in b ensures k in a {
        if found != [] { LtTransitive(found[|found| - 1], c, k); }
      }
      LtIrreflexive(c);
      assert c in a && c !in b;
      assert a == b + (a - b);
      assert c in a - b;
    }

    /** One pass of a cursor; None if a deadlock ended it. */
    method Scan() returns (r: Option<seq<DbKey>>)
      requires WorldOK(world)
      modifies this`now
      ensures now > old(now) && (r.None? ==> now <= |world.moments|)
      ensures r.Some? ==> Answers(world, firstN, r.value)
    {
      var identities, go := [], true;
      now := now + 1;
      if MomentAt(world, now - 1).Deadlock? {   // opening the cursor
        return None;
      }
      while go   // do ... while((firstN <= 0 || identities.size() < firstN) && found)
        invariant now > old(now) && Passed(identities)
        invariant if go then firstN <= 0 || |identities| < firstN else Answers(world, firstN, identities)
        decreases if now < |world.moments| then |world.moments| - now else 0, Rest(identities), go
      {
        var moment := MomentAt(world, now);
        now := now + 1;
        if moment.Deadlock? {
          return None;
        }
        PassNext(identities, now - 1);
        var found := FirstAbove(moment.keys, Position(identities));
        if found.Some? {
          if now > |world.moments| {
            RestShrinks(identities, found.value);
          }
          identities := identities + [found.value];
        }
        go := (firstN <= 0 || |identities| < firstN) && found.Some?;
      }
      now := now + 1;
      r := if MomentAt(world, now - 1).Deadlock? then None else Some(identities);   // closing it
    }

    /** untypedFindFirst, after saveNow: the pass that met no deadlock counts, and only that one. */
    method FindFirst() returns (identities: seq<DbKey>)
      requires WorldOK(world)
      modifies this`now
      ensures Answers(world, firstN, identities)
    {
      var r := Scan();
      while r.None?
        invariant r.None? ==> now <= |world.moments|
        invariant r.Some? ==> Answers(world, firstN, r.value)
        decreases if r.None? then |world.moments| - now + 1 else 0
      {
        r := Scan();
      }
      identities := r.value;
    }

    /** untypedCount, after saveNow. */
    method Count() returns (result: nat)
      modifies this`now
      ensures result == CountFrom(world, old(now), 0)
    {
      result := 0;
      var again := true;
      while again
        invariant CountFrom(world, old(now), 0) == if again then CountFrom(world, now, result) else result
        decreases if again && now < |world.moments| then |world.moments| - now else 0, again
      {
        again := false;
        var atOpen := MomentAt(world, now);
        now := now + 1;
        if atOpen.Deadlock? {
          again := true;
        } else {
          var got := MomentAt(world, now);
          now := now + 1;
          if got.Deadlock? {
            again := true;
          } else {
            if got.keys != [] {
              var counted := MomentAt(world, now);
              now := now + 1;
              if counted.Deadlock? {
                again := true;
              } else {
                result := |counted.keys|;
              }
            }
            if !again {
              again := MomentAt(world, now).Deadlock?;
              now := now + 1;
            }
          }
        }
      }
    }
  }

  /** The count from operation `i` on, with `result` left over from attempts before it. */
  function CountFrom(w: World, i: nat, result: nat): nat
    decreases if i < |w.moments| then |w.moments| - i else 0
  {
    if MomentAt(w, i).Deadlock? then CountFrom(w, i + 1, result)
    else if MomentAt(w, i + 1).Deadlock? then CountFrom(w, i + 2, result)
    else if MomentAt(w, i + 1).keys == [] then
      if MomentAt(w, i + 2).Deadlock? then CountFrom(w, i + 3, result) else result
    else if MomentAt(w, i + 2).Deadlock? then CountFrom(w, i + 3, result)
    else
      var n := |MomentAt(w, i + 2).keys|;
      if MomentAt(w, i + 3).Deadlock? then CountFrom(w, i + 4, n) else n
  }

  /** The store does not change during the query. */
  ghost predicate Stable(w: World) {
    forall i :: 0 <= i < |w.moments| && w.moments[i].Keys? ==> w.moments[i].keys == w.last
  }

  /** Then the count is the number of matching records, whatever deadlocks it meets. */
  lemma {:induction false} StableCount(w: World, i: nat, result: nat)
    requires Stable(w) && (result == 0 || result == |w.last|)
    ensures CountFrom(w, i, result) == |w.last|
    decreases if i < |w.moments| then |w.moments| - i else 0
  {
    if MomentAt(w, i).Deadlock? {
      StableCount(w, i + 1, result);
    } else if MomentAt(w, i + 1).Deadlock? {
      StableCount(w, i + 2, result);
    } else if MomentAt(w, i + 2).Deadlock? {
      StableCount(w, i + 3, result);
    } else if w.last != [] && MomentAt(w, i + 3).Deadlock? {
      StableCount(w, i + 4, |w.last|);
    }
  }

  /** In a store that does not change a query with limit returns the first so many of what matches, or all. */
  lemma StableFindFirst(w: World, firstN: int, found: seq<DbKey>)
    requires WorldOK(w) && Stable(w) && Answers(w, firstN, found)
    ensures found == FirstOf(w.last, firstN)
  {
    forall k | k in w.last ensures AlwaysThere(w, k) {
    }
    assert forall k | k in found :: k in w.last;
    SortedPrefix(w.last, found);
    if |found| < |w.last| {
      var k := w.last[|found|];
      if k in found {
        var i :| 0 <= i < |found| && found[i] == k;
        assert Lt(w.last[i], w.last[|found|]);
        LtIrreflexive(k);
      }
    }
  }

  /** Then the answer is, in the order of the primary keys, the stored records a scan would pick, up to the limit. */
  lemma QueryAgreesWithScan(primary: Primary, sec: Secondary, indexKey: Record -> Option<DbKey>, ik: DbKey, w: World, firstN: int, found: seq<DbKey>)
    requires InStep(primary, sec, indexKey) && WorldOK(w) && Stable(w) && w.last == Duplicates(sec, ik)
    requires Answers(w, firstN, found)
    ensures found == FirstOf(Duplicates(sec, ik), firstN) && Increasing(found)
    ensures forall pk | pk in found :: pk in primary && indexKey(primary[pk]) == Some(ik)
    ensures forall pk | pk in primary && indexKey(primary[pk]) == Some(ik) && pk !in found ::
      |found| == firstN && forall x | x in found :: Lt(x, pk)
  {
    StableFindFirst(w, firstN, found);
    forall pk | pk in w.last ensures AlwaysThere(w, pk) {
    }
    assert forall pk | pk in primary && indexKey(primary[pk]) == Some(ik) :: pk in w.last;
    assert forall pk | pk in found :: pk in w.last;
  }

  /** Sorted keys of a sorted list that come before all others of it are its beginning. */
  lemma {:induction false} SortedPrefix(l: seq<DbKey>, found: seq<DbKey>)
    requires Increasing(l) && Increasing(found) && (forall k | k in found :: k in l)
    requires forall k, x | k in l && k !in found && x in found :: Lt(x, k)
    ensures |found| <= |l| && found == l[..|found|]
  {
    if found != [] {
      assert found[0] in l;
      var i :| 0 <= i < |l| && l[i] == found[0];
      FirstOfBoth(l, found, i);
      var m, f := l[1..], found[1..];
      forall k | k in f ensures k in m {
        var j :| 0 <= j < |f| && f[j] == k;
        assert Lt(found[0], found[j + 1]);
        LtIrreflexive(k);
        assert k in l && k != l[0];
      }
      forall k, x | k in m && k !in f && x in f ensures Lt(x, k) {
        var j :| 0 <= j < |m| && m[j] == k;
        assert Lt(l[0], l[j + 1]);
        LtIrreflexive(k);
        assert k != found[0] && k !in found;
      }
      SortedPrefix(m, f);
    }
  }

  lemma FirstOfBoth(l: seq<DbKey>, found: seq<DbKey>, i: nat)
    requires Increasing(l) && Increasing(found) && found != [] && i < |l| && l[i] == found[0]
    requires forall k, x | k in l && k !in found && x in found :: Lt(x, k)
    ensures found[0] == l[0]
  {
    if i > 0 {
      assert Lt(l[0], found[0]);
      LtIrreflexive(found[0]);
      if l[0] in found {
        var j :| 0 <= j < |found| && found[j] == l[0];
        if j > 0 { LtTransitive(found[0], found[j], found[0]); }
      } else {
        LtTransitive(found[0], l[0], found[0]);
      }
    }
  }

  /** The attempt that starts with operation `i` finds a record and gets its count. */
  predicate Counts(w: World, i: nat) {
    && !MomentAt(w, i).Deadlock? && !MomentAt(w, i + 1).Deadlock? && !MomentAt(w, i + 2).Deadlock?
    && MomentAt(w, i + 1).keys != []
  }

  /** The operation after which it is over, by a deadlock there or because it has closed its cursor. */
  function Ends(w: World, i: nat): nat {
    if MomentAt(w, i).Deadlock? then i
    else if MomentAt(w, i + 1).Deadlock? then i + 1
    else if MomentAt(w, i + 2).Deadlock? || MomentAt(w, i + 1).keys == [] then i + 2
    else i + 3
  }

  /** The operations with which the attempts from `i` on start, the last of them the one that succeeds. */
  function Attempts(w: World, i: nat): (starts: seq<nat>)
    ensures starts != [] && starts[0] == i
    decreases if i < |w.moments| then |w.moments| - i else 0
  {
    if MomentAt(w, Ends(w, i)).Deadlock? then [i] + Attempts(w, Ends(w, i) + 1) else [i]
  }

  ghost predicate NoneCounts(w: World, starts: seq<nat>) {
    forall j :: 0 <= j < |starts| ==> !Counts(w, starts[j])
  }

  /** The `m`-th attempt is the last one to count. */
  ghost predicate LastToCount(w: World, starts: seq<nat>, m: nat) {
    m < |starts| && Counts(w, starts[m]) && NoneCounts(w, starts[m + 1..])
  }

  /** What the successful attempt saw: the number of records, or none. */
  function Seen(w: World, i: nat): nat {
    if Counts(w, i) then |MomentAt(w, i + 2).keys| else 0
  }

  /** An attempt ended by a deadlock hands on its count, or else the one it was handed. */
  lemma FailedAttempt(w: World, i: nat, result: nat)
    requires MomentAt(w, Ends(w, i)).Deadlock?
    ensures CountFrom(w, i, result) == CountFrom(w, Ends(w, i) + 1, if Counts(w, i) then Seen(w, i) else result)
  {
  }

  /** The result is the count of the last attempt that counted, the successful one included. */
  lemma {:induction false} CountOfLast(w: World, i: nat, result: nat)
    ensures NoneCounts(w, Attempts(w, i)) ==> CountFrom(w, i, result) == result
    ensures forall m: nat :: LastToCount(w, Attempts(w, i), m) ==> CountFrom(w, i, result) == Seen(w, Attempts(w, i)[m])
    decreases if i < |w.moments| then |w.moments| - i else 0
  {
    var starts := Attempts(w, i);
    if MomentAt(w, Ends(w, i)).Deadlock? {
      var kept := if Counts(w, i) then Seen(w, i) else result;
      var rest := Attempts(w, Ends(w, i) + 1);
      FailedAttempt(w, i, result);
      CountOfLast(w, Ends(w, i) + 1, kept);
      assert starts[1..] == rest;
      assert NoneCounts(w, starts) ==> NoneCounts(w, rest) && !Counts(w, starts[0]);
      forall m: nat | LastToCount(w, starts, m) ensures CountFrom(w, i, result) == Seen(w, starts[m]) {
        if m > 0 {
          assert rest[m..] == starts[m + 1..] && rest[m - 1] == starts[m];
          assert LastToCount(w, rest, m - 1);
        }
      }
    }
  }

  /** Some attempt was the last to count, unless none did. */
  lemma {:induction false} SomeLast(w: World, starts: seq<nat>) returns (m: nat)
    requires !NoneCounts(w, starts)
    ensures LastToCount(w, starts, m)
  {
    var n := |starts| - 1;
    if Counts(w, starts[n]) {
      m := n;
    } else {
      var before := starts[..n];
      m := SomeLast(w, before);
      assert starts[m + 1..] == before[m + 1..] + [starts[n]];
    }
  }

  /**
   The result is what the successful attempt saw, unless that one found no record and the last attempt to count
   had counted some before it met a deadlock at the closing of its cursor.
   */
  lemma CountIsCurrentIff(w: World)
    ensures var starts := Attempts(w, 0);
      var last := starts[|starts| - 1];
      CountFrom(w, 0, 0) == Seen(w, last) <==>
        Counts(w, last) || forall m: nat :: LastToCount(w, starts, m) ==> MomentAt(w, starts[m] + 2).keys == []
  {
    var starts := Attempts(w, 0);
    var n := |starts| - 1;
    CountOfLast(w, 0, 0);
    if Counts(w, starts[n]) {
      assert LastToCount(w, starts, n);
    } else if !NoneCounts(w, starts) {
      var m := SomeLast(w, starts);
      assert CountFrom(w, 0, 0) == Seen(w, starts[m]);
    }
  }

  /** The count is not reset for a new attempt: here it is 1 although no record matches any more since the attempt began. */
  lemma StaleCount(k: DbKey)
    ensures var w := World([Keys([k]), Keys([k]), Keys([k]), Deadlock], []);
      CountFrom(w, 0, 0) == 1 && Attempts(w, 0) == [0, 4] && Seen(w, 4) == 0
  {
    var w := World([Keys([k]), Keys([k]), Keys([k]), Deadlock], []);
    assert MomentAt(w, 0) == Keys([k]) && MomentAt(w, 1) == Keys([k]) && MomentAt(w, 2) == Keys([k]);
    assert MomentAt(w, 3).Deadlock? && MomentAt(w, 4) == Keys([]) && MomentAt(w, 5) == Keys([]) && MomentAt(w, 6) == Keys([]);
    assert CountFrom(w, 4, 1) == 1 && Attempts(w, 4) == [4];
    assert Ends(w, 0) == 3;
  }
}
