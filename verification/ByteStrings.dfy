/** Bytes, byte strings, and the order Berkeley DB keeps its keys in. */
module ByteStrings {
  newtype byte = x: int | 0 <= x < 256

  /** Lexicographic order; a prefix comes first. */
  predicate Lt(a: seq<byte>, b: seq<byte>) {
    b != [] && (a == [] || a[0] < b[0] || (a[0] == b[0] && Lt(a[1..], b[1..])))
  }

  predicate Le(a: seq<byte>, b: seq<byte>) {
    a == b || Lt(a, b)
  }

  lemma {:induction false} LtIrreflexive(a: seq<byte>)
    ensures !Lt(a, a)
  {
    if a != [] {
      LtIrreflexive(a[1..]);
    }
  }

  lemma {:induction false} LtTransitive(a: seq<byte>, b: seq<byte>, c: seq<byte>)
    requires Lt(a, b) && Lt(b, c)
    ensures Lt(a, c)
  {
    if a != [] && a[0] == b[0] && b[0] == c[0] {
      LtTransitive(a[1..], b[1..], c[1..]);
    }
  }

  lemma {:induction false} LtTotal(a: seq<byte>, b: seq<byte>)
    ensures Lt(a, b) || a == b || Lt(b, a)
  {
    if a != [] && b != [] && a[0] == b[0] {
      LtTotal(a[1..], b[1..]);
      assert a == [a[0]] + a[1..] && b == [b[0]] + b[1..];
    }
  }

  ghost predicate Increasing(l: seq<seq<byte>>) {
    forall i, j :: 0 <= i < j < |l| ==> Lt(l[i], l[j])
  }
}
