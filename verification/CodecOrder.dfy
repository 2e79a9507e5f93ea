/** The order of dictionary keys is a strict total order on values of a key type, so insertion keeps entries sorted. */
module CodecOrder {
  import opened ByteStrings
  import opened Codec

  /** Of two different keys exactly one is less. */
  lemma {:induction false} LessTotal(t: Type, a: Value, b: Value)
    requires KeyType(t) && Shaped(t, a) && Shaped(t, b)
    ensures Less(t, a, b) || Less(t, b, a) || a == b
    ensures !(Less(t, a, b) && Less(t, b, a))
    ensures !Less(t, a, a)
    decreases t, 2, 0
  {
    match t
    case BoolT =>
    case IntegerT(_) =>
    case EnumT(_) =>
    case StringT =>
      LtTotal(a.s, b.s);
      LtIrreflexive(a.s);
      if Lt(a.s, b.s) && Lt(b.s, a.s) { LtTransitive(a.s, b.s, a.s); }
    case StructT(_, _) =>
      MembersTotal(t, a.members, b.members, 0);
      MembersTotal(t, a.members, a.members, 0);
    case SequenceT(e) =>
      ElementsTotal(e, a.elements, b.elements);
      ElementsTotal(e, a.elements, a.elements);
  }

  lemma {:induction false} MembersTotal(t: Type, a: seq<Value>, b: seq<Value>, i: nat)
    requires t.StructT? && KeyType(t) && Shaped(t, StructV(a)) && Shaped(t, StructV(b)) && i <= |a|
    ensures LessMembers(t, a, b, i) || LessMembers(t, b, a, i) || a[i..] == b[i..]
    ensures !(LessMembers(t, a, b, i) && LessMembers(t, b, a, i))
    decreases t, 1, |a| - i
  {
    if i < |a| {
      LessTotal(t.byName[i], a[i], b[i]);
      MembersTotal(t, a, b, i + 1);
      assert a[i..] == [a[i]] + a[i + 1..] && b[i..] == [b[i]] + b[i + 1..];
    }
  }

  lemma {:induction false} ElementsTotal(t: Type, a: seq<Value>, b: seq<Value>)
    requires KeyType(t)
    requires forall i :: 0 <= i < |a| ==> Shaped(t, a[i])
    requires forall i :: 0 <= i < |b| ==> Shaped(t, b[i])
    ensures LessElements(t, a, b) || LessElements(t, b, a) || a == b
    ensures !(LessElements(t, a, b) && LessElements(t, b, a))
    decreases t, 3, |a|
  {
    if a != [] && b != [] {
      LessTotal(t, a[0], b[0]);
      ElementsTotal(t, a[1..], b[1..]);
      assert a == [a[0]] + a[1..] && b == [b[0]] + b[1..];
    }
  }

  lemma {:induction false} LessTransitive(t: Type, a: Value, b: Value, c: Value)
    requires KeyType(t) && Shaped(t, a) && Shaped(t, b) && Shaped(t, c)
    requires Less(t, a, b) && Less(t, b, c)
    ensures Less(t, a, c)
    decreases t, 2, 0
  {
    match t
    case BoolT =>
    case IntegerT(_) =>
    case EnumT(_) =>
    case StringT => LtTransitive(a.s, b.s, c.s);
    case StructT(_, _) => MembersTransitive(t, a.members, b.members, c.members, 0);
    case SequenceT(e) => ElementsTransitive(e, a.elements, b.elements, c.elements);
  }

  lemma {:induction false} MembersTransitive(t: Type, a: seq<Value>, b: seq<Value>, c: seq<Value>, i: nat)
    requires t.StructT? && KeyType(t) && Shaped(t, StructV(a)) && Shaped(t, StructV(b)) && Shaped(t, StructV(c)) && i <= |a|
    requires LessMembers(t, a, b, i) && LessMembers(t, b, c, i)
    ensures LessMembers(t, a, c, i)
    decreases t, 1, |a| - i
  {
    LessTotal(t.byName[i], a[i], b[i]);
    LessTotal(t.byName[i], b[i], c[i]);
    HeadTransitive(t.byName[i], a[i], b[i], c[i]);
    if !Less(t.byName[i], a[i], b[i]) && !Less(t.byName[i], b[i], c[i]) {
      MembersTransitive(t, a, b, c, i + 1);
    }
  }

  lemma {:induction false} ElementsTransitive(t: Type, a: seq<Value>, b: seq<Value>, c: seq<Value>)
    requires KeyType(t)
    requires forall i :: 0 <= i < |a| ==> Shaped(t, a[i])
    requires forall i :: 0 <= i < |b| ==> Shaped(t, b[i])
    requires forall i :: 0 <= i < |c| ==> Shaped(t, c[i])
    requires LessElements(t, a, b) && LessElements(t, b, c)
    ensures LessElements(t, a, c)
    decreases t, 3, |a|
  {
    if a != [] {
      LessTotal(t, a[0], b[0]);
      LessTotal(t, b[0], c[0]);
      HeadTransitive(t, a[0], b[0], c[0]);
      if !Less(t, a[0], b[0]) && !Less(t, b[0], c[0]) {
        ElementsTransitive(t, a[1..], b[1..], c[1..]);
      }
    }
  }

  /** How the first difference of three keys behaves. */
  lemma {:induction false} HeadTransitive(t: Type, a: Value, b: Value, c: Value)
    requires KeyType(t) && Shaped(t, a) && Shaped(t, b) && Shaped(t, c)
    requires !Less(t, b, a) && !Less(t, c, b)
    ensures !Less(t, c, a)
    ensures Less(t, a, b) || Less(t, b, c) ==> Less(t, a, c)
    ensures !Less(t, a, b) ==> a == b
    ensures !Less(t, b, c) ==> b == c
    decreases t, 2, 1
  {
    LessTotal(t, a, b);
    LessTotal(t, b, c);
    LessTotal(t, a, c);
    if Less(t, a, b) && Less(t, b, c) {
      LessTransitive(t, a, b, c);
    }
  }

  /** Entries stay sorted, with no key twice, whatever is inserted. */
  lemma {:induction false} InsertSorted(t: Type, es: seq<(Value, Value)>, k: Value, v: Value)
    requires KeyType(t) && Shaped(t, k) && (forall i :: 0 <= i < |es| ==> Shaped(t, es[i].0)) && Sorted(t, es)
    ensures Sorted(t, Insert(t, es, k, v))
  {
    if es == [] {
    } else if Less(t, k, es[0].0) {
      BelowAll(t, es, k);
    } else if Less(t, es[0].0, k) {
      InsertSorted(t, es[1..], k, v);
      AboveHead(t, es, k, v);
    }
  }

  lemma BelowAll(t: Type, es: seq<(Value, Value)>, k: Value)
    requires KeyType(t) && Shaped(t, k) && (forall i :: 0 <= i < |es| ==> Shaped(t, es[i].0)) && Sorted(t, es)
    requires es != [] && Less(t, k, es[0].0)
    ensures forall j :: 0 <= j < |es| ==> Less(t, k, es[j].0) && es[j].0 != k
  {
    forall j | 0 <= j < |es| ensures Less(t, k, es[j].0) && es[j].0 != k {
      if j > 0 { LessTransitive(t, k, es[0].0, es[j].0); }
      LessTotal(t, k, es[j].0);
    }
  }

  lemma AboveHead(t: Type, es: seq<(Value, Value)>, k: Value, v: Value)
    requires KeyType(t) && Shaped(t, k) && (forall i :: 0 <= i < |es| ==> Shaped(t, es[i].0)) && Sorted(t, es)
    requires es != [] && Less(t, es[0].0, k)
    requires Sorted(t, Insert(t, es[1..], k, v))
    ensures Sorted(t, [es[0]] + Insert(t, es[1..], k, v))
  {
    var m := Insert(t, es[1..], k, v);
    forall j | 0 <= j < |m| ensures Less(t, es[0].0, m[j].0) {
      assert m[j] == (k, v) || m[j] in es[1..];
    }
  }

  /** Inserting keeps every entry; a new key is added, and the value of a key already there stays the first one. */
  lemma {:induction false} InsertKeepsFirst(t: Type, es: seq<(Value, Value)>, k: Value, v: Value)
    requires KeyType(t) && Shaped(t, k) && (forall i :: 0 <= i < |es| ==> Shaped(t, es[i].0)) && Sorted(t, es)
    ensures forall x | x in es :: x in Insert(t, es, k, v)
    ensures (exists x :: x in es && x.0 == k) ==> Insert(t, es, k, v) == es
    ensures !(exists x :: x in es && x.0 == k) ==> (k, v) in Insert(t, es, k, v)
  {
    if es != [] {
      LessTotal(t, k, es[0].0);
      assert forall x :: x in es <==> x == es[0] || x in es[1..];
      if Less(t, k, es[0].0) {
        BelowAll(t, es, k);
      } else if Less(t, es[0].0, k) {
        InsertKeepsFirst(t, es[1..], k, v);
      } else {
        assert es[0] in es && es[0].0 == k;
      }
    }
  }

  /** A key above all others goes to the end. */
  lemma {:induction false} InsertLast(t: Type, es: seq<(Value, Value)>, k: Value, v: Value)
    requires KeyType(t) && Shaped(t, k) && (forall i :: 0 <= i < |es| ==> Shaped(t, es[i].0))
    requires forall i :: 0 <= i < |es| ==> Less(t, es[i].0, k)
    ensures Insert(t, es, k, v) == es + [(k, v)]
  {
    if es != [] {
      LessTotal(t, es[0].0, k);
      InsertLast(t, es[1..], k, v);
      assert es == [es[0]] + es[1..];
    }
  }
}
