/** Values shared by every part of the evictor model. */
module EvictorTypes {

  datatype Option<+T> = None | Some(value: T)

  /** The object `facet`/`name`/`category`: the facet selects the store, the rest is the Ice identity. */
  datatype Key = Key(facet: string, name: string, category: string)

  /** A servant: the identity of the C++ object, and the state that marshalling it would write. */
  datatype Servant = Servant(oid: nat, state: string)

  datatype Status = Clean | Created | Modified | Destroyed | Dead

  /** The object exists for clients. */
  predicate Present(s: Status) {
    s.Clean? || s.Created? || s.Modified?
  }

  /** The database has not been told yet. */
  predicate Dirty(s: Status) {
    s.Created? || s.Modified? || s.Destroyed?
  }

  /** The fields of one EvictorElement. */
  datatype Elem = Elem(key: Key, servant: Option<Servant>, status: Status, usage: int, keep: int, stale: bool)

  function Min(a: nat, b: nat): nat {
    if a < b then a else b
  }

  function Get<K, V>(m: map<K, V>, k: K): Option<V> {
    if k in m then Some(m[k]) else None
  }

  /** The list without `x`. */
  function Without<T(==)>(l: seq<T>, x: T): (r: seq<T>)
    ensures forall y | y in r :: y in l && y != x
    ensures forall y | y in l :: y != x ==> y in r
    ensures |r| <= |l|
  {
    if l == [] then []
    else if l[0] == x then Without(l[1..], x)
    else [l[0]] + Without(l[1..], x)
  }

  ghost predicate NoDup<T>(l: seq<T>) {
    forall i, j :: 0 <= i < j < |l| ==> l[i] != l[j]
  }

  lemma {:induction false} WithoutNoDup<T>(l: seq<T>, x: T)
    requires NoDup(l)
    ensures NoDup(Without(l, x))
    ensures |Without(l, x)| == if x in l then |l| - 1 else |l|
  {
    if l != [] {
      WithoutNoDup(l[1..], x);
      if l[0] == x {
        assert x !in l[1..];
      } else {
        assert forall j :: 0 <= j < |Without(l[1..], x)| ==> Without(l[1..], x)[j] in l[1..];
      }
    }
  }

  /** In a list without repetition, removing the entry at `i` cuts it out and keeps the order of the others. */
  lemma {:induction false} WithoutAt<T>(l: seq<T>, i: nat)
    requires NoDup(l) && i < |l|
    ensures Without(l, l[i]) == l[..i] + l[i + 1..]
  {
    if i == 0 {
      WithoutAbsent(l[1..], l[0]);
      assert l[..0] + l[1..] == l[1..];
    } else {
      WithoutAt(l[1..], i - 1);
      assert l[1..][i - 1] == l[i];
      assert [l[0]] + (l[1..][..i - 1] + l[1..][i..]) == l[..i] + l[i + 1..];
    }
  }

  lemma {:induction false} WithoutAbsent<T>(l: seq<T>, x: T)
    requires x !in l
    ensures Without(l, x) == l
  {
    if l != [] {
      WithoutAbsent(l[1..], x);
    }
  }
}
