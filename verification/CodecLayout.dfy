/**
 What the bytes of a value are, part by part, which values cannot be written, what the order of keys means,
 and what is read from bytes that no writer wrote.
 */
module CodecLayout {
  import opened EvictorTypes
  import opened ByteStrings
  import opened Wire
  import opened Codec
  import opened CodecOrder
  import opened CodecRoundTrip

  /** Byte strings one after the other. */
  function Concat(parts: seq<seq<byte>>): seq<byte> {
    if parts == [] then [] else parts[0] + Concat(parts[1..])
  }

  /****** Which values can be written ******/

  /** The range of an integer type is what its bytes can hold: unsigned for a byte, signed for the others. */
  lemma RangeIsWidth(k: Kind, n: int)
    ensures InRange(k, n) <==> if k.Byte? then 0 <= n < Pow(Width(k)) else FitsIn(n, Width(k))
  {
    Powers();
  }

  /** Every integer in the value is in the range of its type. */
  predicate InRanges(t: Type, v: Value)
    requires Shaped(t, v)
  {
    match t
    case BoolT => true
    case IntegerT(k) => if k.Byte? then 0 <= v.n <= 255 else FitsIn(v.n, Width(k))
    case EnumT(_) => true
    case StringT => true
    case StructT(byName, _) => forall i :: 0 <= i < |byName| ==> InRanges(byName[i], v.members[i])
    case SequenceT(e) => forall i :: 0 <= i < |v.elements| ==> InRanges(e, v.elements[i])
    case DictionaryT(kt, vt) => forall i :: 0 <= i < |v.entries| ==> InRanges(kt, v.entries[i].0) && InRanges(vt, v.entries[i].1)
  }

  /** A value is refused if and only if some integer in it is out of range. */
  lemma {:induction false} WrittenIff(t: Type, v: Value)
    requires LegalType(t) && Shaped(t, v)
    ensures Marshal(t, v).Some? <==> InRanges(t, v)
    decreases t, 2, 0
  {
    match t
    case BoolT =>
    case IntegerT(k) => RangeIsWidth(k, v.n);
    case EnumT(_) =>
    case StringT =>
    case StructT(byName, decl) =>
      forall i | 0 <= i < |byName| ensures Marshal(byName[i], v.members[i]).Some? <==> InRanges(byName[i], v.members[i]) {
        WrittenIff(byName[i], v.members[i]);
      }
      MembersWrittenIff(t, decl, v.members);
    case SequenceT(e) => ElementsWrittenIff(e, v.elements);
    case DictionaryT(kt, vt) => EntriesWrittenIff(kt, vt, v.entries);
  }

  lemma {:induction false} MembersWrittenIff(t: Type, decl: seq<nat>, members: seq<Value>)
    requires t.StructT? && LegalType(t) && Shaped(t, StructV(members))
    requires forall i :: 0 <= i < |decl| ==> decl[i] < |t.byName|
    ensures MarshalMembers(t, decl, members).Some? <==> forall m | m in decl :: Marshal(t.byName[m], members[m]).Some?
    decreases |decl|
  {
    if decl != [] {
      MembersWrittenIff(t, decl[1..], members);
      assert forall m :: m in decl <==> m == decl[0] || m in decl[1..];
    }
  }

  lemma {:induction false} ElementsWrittenIff(t: Type, vs: seq<Value>)
    requires LegalType(t) && forall i :: 0 <= i < |vs| ==> Shaped(t, vs[i])
    ensures MarshalElements(t, vs).Some? <==> forall i :: 0 <= i < |vs| ==> InRanges(t, vs[i])
    decreases t, 3, |vs|
  {
    if vs != [] {
      WrittenIff(t, vs[0]);
      ElementsWrittenIff(t, vs[1..]);
      assert forall i :: 1 <= i < |vs| ==> vs[i] == vs[1..][i - 1];
    }
  }

  lemma {:induction false} EntriesWrittenIff(kt: Type, vt: Type, es: seq<(Value, Value)>)
    requires LegalType(kt) && LegalType(vt) && Shaped(DictionaryT(kt, vt), DictionaryV(es))
    ensures MarshalEntries(kt, vt, es).Some? <==> forall i :: 0 <= i < |es| ==> InRanges(kt, es[i].0) && InRanges(vt, es[i].1)
    decreases DictionaryT(kt, vt), 1, |es|
  {
    if es != [] {
      WrittenIff(kt, es[0].0);
      WrittenIff(vt, es[0].1);
      EntriesWrittenIff(kt, vt, es[1..]);
      assert forall i :: 1 <= i < |es| ==> es[i] == es[1..][i - 1];
    }
  }

  /****** Layout ******/

  /** The parts of a struct's encoding: its members in order of declaration. */
  function MemberBytes(t: Type, decl: seq<nat>, members: seq<Value>): (parts: seq<seq<byte>>)
    requires t.StructT? && LegalType(t) && Shaped(t, StructV(members))
    requires forall i :: 0 <= i < |decl| ==> decl[i] < |t.byName| && Marshal(t.byName[decl[i]], members[decl[i]]).Some?
  {
    seq(|decl|, i requires 0 <= i < |decl| => Marshal(t.byName[decl[i]], members[decl[i]]).value)
  }

  /** A struct is its members in order of declaration, with nothing before, between or after them. */
  lemma {:induction false} StructLayout(t: Type, decl: seq<nat>, members: seq<Value>)
    requires t.StructT? && LegalType(t) && Shaped(t, StructV(members))
    requires forall i :: 0 <= i < |decl| ==> decl[i] < |t.byName| && Marshal(t.byName[decl[i]], members[decl[i]]).Some?
    ensures MarshalMembers(t, decl, members) == Some(Concat(MemberBytes(t, decl, members)))
    ensures decl == t.decl ==> Marshal(t, StructV(members)) == Some(Concat(MemberBytes(t, decl, members)))
    decreases |decl|
  {
    if decl != [] {
      StructLayout(t, decl[1..], members);
      assert MemberBytes(t, decl, members)[1..] == MemberBytes(t, decl[1..], members);
    }
  }

  /** All elements can be written. */
  predicate Writable(t: Type, vs: seq<Value>)
    requires LegalType(t)
  {
    forall i :: 0 <= i < |vs| ==> Shaped(t, vs[i]) && Marshal(t, vs[i]).Some?
  }

  function ElementBytes(t: Type, vs: seq<Value>): (parts: seq<seq<byte>>)
    requires LegalType(t) && Writable(t, vs)
  {
    seq(|vs|, i requires 0 <= i < |vs| => Marshal(t, vs[i]).value)
  }

  lemma {:induction false} ElementsLayout(t: Type, vs: seq<Value>)
    requires LegalType(t) && Writable(t, vs)
    ensures MarshalElements(t, vs) == Some(Concat(ElementBytes(t, vs)))
  {
    if vs != [] {
      ElementsLayout(t, vs[1..]);
      assert ElementBytes(t, vs)[1..] == ElementBytes(t, vs[1..]);
    }
  }

  /** A sequence is the number of its elements and then the elements in order. */
  lemma SequenceLayout(t: Type, vs: seq<Value>)
    requires LegalType(t) && Writable(t, vs)
    ensures Marshal(SequenceT(t), SequenceV(vs)) == Some(SizeBytes(|vs|) + Concat(ElementBytes(t, vs)))
  {
    ElementsLayout(t, vs);
  }

  /** Both halves of every entry can be written. */
  predicate EntriesWritable(kt: Type, vt: Type, es: seq<(Value, Value)>)
    requires LegalType(kt) && LegalType(vt)
  {
    forall i :: 0 <= i < |es| ==> EntryWritable(kt, vt, es[i])
  }

  predicate EntryWritable(kt: Type, vt: Type, e: (Value, Value))
    requires LegalType(kt) && LegalType(vt)
  {
    Shaped(kt, e.0) && Shaped(vt, e.1) && Marshal(kt, e.0).Some? && Marshal(vt, e.1).Some?
  }

  function EntryBytes(kt: Type, vt: Type, es: seq<(Value, Value)>): (parts: seq<seq<byte>>)
    requires LegalType(kt) && LegalType(vt) && EntriesWritable(kt, vt, es)
  {
    seq(|es|, i requires 0 <= i < |es| => Marshal(kt, es[i].0).value + Marshal(vt, es[i].1).value)
  }

  lemma PairLayout(kt: Type, vt: Type, e: (Value, Value))
    requires LegalType(kt) && LegalType(vt) && EntryWritable(kt, vt, e)
    ensures MarshalPair(kt, vt, e) == Some(Marshal(kt, e.0).value + Marshal(vt, e.1).value)
  {
  }

  lemma {:induction false} EntriesLayout(kt: Type, vt: Type, es: seq<(Value, Value)>)
    requires LegalType(kt) && LegalType(vt) && EntriesWritable(kt, vt, es)
    ensures Shaped(DictionaryT(kt, vt), DictionaryV(es))
    ensures MarshalEntries(kt, vt, es) == Some(Concat(EntryBytes(kt, vt, es)))
  {
    if es != [] {
      PairLayout(kt, vt, es[0]);
      EntriesLayout(kt, vt, es[1..]);
      assert EntryBytes(kt, vt, es)[1..] == EntryBytes(kt, vt, es[1..]);
      assert EntryBytes(kt, vt, es)[0] == MarshalPair(kt, vt, es[0]).value;
    }
  }

  /** A dictionary is the number of its entries and then for each, in key order, the key and the value. */
  lemma DictionaryLayout(kt: Type, vt: Type, es: seq<(Value, Value)>)
    requires LegalType(kt) && LegalType(vt) && KeyType(kt) && EntriesWritable(kt, vt, es)
    ensures Shaped(DictionaryT(kt, vt), DictionaryV(es))
    ensures Marshal(DictionaryT(kt, vt), DictionaryV(es)) == Some(SizeBytes(|es|) + Concat(EntryBytes(kt, vt, es)))
  {
    EntriesLayout(kt, vt, es);
  }

  /** Enums take one byte up to 127 enumerators, two up to 32767 and else four; numbers as many as their type has. */
  lemma NumberLayout(count: nat, k: Kind, n: int)
    requires LegalType(EnumT(count))
    ensures Marshal(EnumT(count), EnumV(n)).Some?
    ensures |Marshal(EnumT(count), EnumV(n)).value| == if count <= 127 then 1 else if count <= 32767 then 2 else 4
    ensures 0 <= n < count && count <= 127 ==> Marshal(EnumT(count), EnumV(n)).value == [n as byte]
    ensures InRange(k, n) ==> var bs := Marshal(IntegerT(k), IntegerV(n));
      bs.Some? && |bs.value| == match k { case Byte => 1 case Short => 2 case Int => 4 case Long => 8 }
  {
    Powers();
    assert ToBytes(n % 256, 1) == [(n % 256 % 256) as byte];
  }

  /****** Reading any bytes ******/

  /** A boolean is true for every byte but zero. */
  lemma BoolRead(s: seq<byte>)
    ensures s != [] ==> Unmarshal(BoolT, s) == Ok(BoolV(s[0] != 0), s[1..])
    ensures s == [] ==> Unmarshal(BoolT, s).Bad?
  {
  }

  /** A prefix that can be read reads the same whatever is put behind it. */
  lemma {:induction false} ReadsOn(t: Type, s: seq<byte>, more: seq<byte>)
    requires LegalType(t) && Unmarshal(t, s).Ok?
    ensures Unmarshal(t, s + more) == Ok(Unmarshal(t, s).value, Unmarshal(t, s).rest + more)
    decreases t, 2, 0
  {
    match t
    case BoolT => ByteOn(s, more);
    case IntegerT(k) => if k.Byte? { ByteOn(s, more); } else { SignedOn(s, Width(k), more); }
    case EnumT(count) => if count <= 127 { ByteOn(s, more); } else { SignedOn(s, EnumWidth(count), more); }
    case StringT => StringOn(s, more);
    case StructT(_, decl) => MembersOn(t, decl, Default(t).members, s, more);
    case SequenceT(e) =>
      SizeOn(s, more);
      ElementsOn(e, ParseSize(s).value, [], ParseSize(s).rest, more);
    case DictionaryT(kt, vt) =>
      SizeOn(s, more);
      EntriesOn(kt, vt, ParseSize(s).value, [], ParseSize(s).rest, more);
  }

  lemma ByteOn(s: seq<byte>, more: seq<byte>)
    requires s != []
    ensures (s + more)[0] == s[0] && (s + more)[1..] == s[1..] + more
  {
  }

  lemma SignedOn(s: seq<byte>, n: nat, more: seq<byte>)
    requires |s| >= n
    ensures (s + more)[..n] == s[..n] && (s + more)[n..] == s[n..] + more
  {
  }

  lemma SizeOn(s: seq<byte>, more: seq<byte>)
    requires ParseSize(s).Ok?
    ensures ParseSize(s + more) == Ok(ParseSize(s).value, ParseSize(s).rest + more)
  {
    ByteOn(s, more);
    if s[0] == 255 {
      SignedOn(s[1..], 4, more);
    }
  }

  lemma StringOn(s: seq<byte>, more: seq<byte>)
    requires ParseString(s).Ok?
    ensures ParseString(s + more) == Ok(ParseString(s).value, ParseString(s).rest + more)
  {
    SizeOn(s, more);
    SignedOn(ParseSize(s).rest, ParseSize(s).value, more);
  }

  lemma {:induction false} MembersOn(t: Type, decl: seq<nat>, members: seq<Value>, s: seq<byte>, more: seq<byte>)
    requires t.StructT? && LegalType(t) && Shaped(t, StructV(members))
    requires forall i :: 0 <= i < |decl| ==> decl[i] < |t.byName|
    requires UnmarshalMembers(t, decl, members, s).Ok?
    ensures UnmarshalMembers(t, decl, members, s + more)
         == Ok(UnmarshalMembers(t, decl, members, s).value, UnmarshalMembers(t, decl, members, s).rest + more)
    decreases t, 1, |decl|
  {
    if decl != [] {
      ReadsOn(t.byName[decl[0]], s, more);
      var r := Unmarshal(t.byName[decl[0]], s);
      MembersOn(t, decl[1..], members[decl[0] := r.value], r.rest, more);
    }
  }

  lemma {:induction false} ElementsOn(t: Type, n: nat, vs: seq<Value>, s: seq<byte>, more: seq<byte>)
    requires LegalType(t) && forall i :: 0 <= i < |vs| ==> Shaped(t, vs[i])
    requires UnmarshalElements(t, n, vs, s).Ok?
    ensures UnmarshalElements(t, n, vs, s + more) == Ok(UnmarshalElements(t, n, vs, s).value, UnmarshalElements(t, n, vs, s).rest + more)
    decreases t, 3, n
  {
    if n != 0 {
      ReadsOn(t, s, more);
      var r := Unmarshal(t, s);
      ElementsOn(t, n - 1, vs + [r.value], r.rest, more);
    }
  }

  lemma {:induction false} EntriesOn(kt: Type, vt: Type, n: nat, es: seq<(Value, Value)>, s: seq<byte>, more: seq<byte>)
    requires LegalType(kt) && LegalType(vt) && Shaped(DictionaryT(kt, vt), DictionaryV(es))
    requires UnmarshalEntries(kt, vt, n, es, s).Ok?
    ensures UnmarshalEntries(kt, vt, n, es, s + more)
         == Ok(UnmarshalEntries(kt, vt, n, es, s).value, UnmarshalEntries(kt, vt, n, es, s).rest + more)
    decreases DictionaryT(kt, vt), 1, n
  {
    if n != 0 {
      PairOn(kt, vt, s, more);
      var r := UnmarshalPair(kt, vt, s);
      var es' := Insert(kt, es, r.value.0, r.value.1);
      forall i | 0 <= i < |es'| ensures Shaped(vt, es'[i].1) {
        assert es'[i] == r.value || es'[i] in es;
      }
      EntriesOn(kt, vt, n - 1, es', r.rest, more);
    }
  }

  lemma {:induction false} PairOn(kt: Type, vt: Type, s: seq<byte>, more: seq<byte>)
    requires LegalType(kt) && LegalType(vt) && UnmarshalPair(kt, vt, s).Ok?
    ensures UnmarshalPair(kt, vt, s + more) == Ok(UnmarshalPair(kt, vt, s).value, UnmarshalPair(kt, vt, s).rest + more)
    decreases DictionaryT(kt, vt), 0, 0
  {
    ReadsOn(kt, s, more);
    ReadsOn(vt, Unmarshal(kt, s).rest, more);
  }

  /** An encoding cut short, at any place, is an error. */
  lemma CutShortIsBad(t: Type, v: Value, n: nat)
    requires LegalType(t) && Fits(t, v) && Marshal(t, v).Some? && n < |Marshal(t, v).value|
    ensures Unmarshal(t, Marshal(t, v).value[..n]).Bad?
  {
    var bs := Marshal(t, v).value;
    if Unmarshal(t, bs[..n]).Ok? {
      ReadsOn(t, bs[..n], bs[n..]);
      assert bs[..n] + bs[n..] == bs + [];
      RoundTripWith(t, v, []);
    }
  }

  /****** The order of keys ******/

  /** Byte strings differ at their first differing byte, */
  lemma {:induction false} BytesDecided(a: seq<byte>, b: seq<byte>, d: nat)
    requires d < |a| && d < |b| && a[..d] == b[..d] && a[d] != b[d]
    ensures Lt(a, b) <==> a[d] < b[d]
  {
    if d > 0 {
      assert a[0] == a[..d][0] == b[..d][0] == b[0];
      assert a[1..][..d - 1] == a[..d][1..] && b[1..][..d - 1] == b[..d][1..];
      BytesDecided(a[1..], b[1..], d - 1);
    }
  }

  /** and a proper prefix comes first. */
  lemma {:induction false} BytesPrefixBelow(a: seq<byte>, more: seq<byte>)
    requires more != []
    ensures Lt(a, a + more) && !Lt(a + more, a)
  {
    if a != [] {
      assert (a + more)[1..] == a[1..] + more;
      BytesPrefixBelow(a[1..], more);
    }
  }

  /** Numbers and enumerators go by value, false is below true, and strings go by their bytes. */
  lemma ScalarsDecided(k: Kind, count: nat, m: int, n: int, a: seq<byte>, b: seq<byte>)
    ensures Less(BoolT, BoolV(false), BoolV(true)) && !Less(BoolT, BoolV(true), BoolV(false))
    ensures m < n ==> Less(IntegerT(k), IntegerV(m), IntegerV(n)) && Less(EnumT(count), EnumV(m), EnumV(n))
    ensures m >= n ==> !Less(IntegerT(k), IntegerV(m), IntegerV(n)) && !Less(EnumT(count), EnumV(m), EnumV(n))
    ensures Less(StringT, StringV(a), StringV(b)) <==> Lt(a, b)
  {
  }

  /** Structs differ at their first differing member, in name order. */
  lemma {:induction false} StructsDecided(t: Type, a: seq<Value>, b: seq<Value>, i: nat, d: nat)
    requires t.StructT? && KeyType(t) && Shaped(t, StructV(a)) && Shaped(t, StructV(b))
    requires i <= d < |a| && a[..d] == b[..d] && a[d] != b[d]
    ensures LessMembers(t, a, b, i) <==> Less(t.byName[d], a[d], b[d])
    ensures i == 0 ==> (Less(t, StructV(a), StructV(b)) <==> Less(t.byName[d], a[d], b[d]))
    decreases d - i
  {
    LessTotal(t.byName[i], a[i], b[i]);
    if i < d {
      assert a[i] == a[..d][i] == b[..d][i] == b[i];
      StructsDecided(t, a, b, i + 1, d);
    }
  }

  /** Sequences differ at their first differing element. */
  lemma {:induction false} SequencesDecided(t: Type, a: seq<Value>, b: seq<Value>, d: nat)
    requires KeyType(t) && Shaped(SequenceT(t), SequenceV(a)) && Shaped(SequenceT(t), SequenceV(b))
    requires d < |a| && d < |b| && a[..d] == b[..d] && a[d] != b[d]
    ensures Less(SequenceT(t), SequenceV(a), SequenceV(b)) <==> Less(t, a[d], b[d])
    decreases d
  {
    LessTotal(t, a[0], b[0]);
    if d > 0 {
      assert a[0] == a[..d][0] == b[..d][0] == b[0];
      assert a[1..][..d - 1] == a[..d][1..] && b[1..][..d - 1] == b[..d][1..];
      SequencesDecided(t, a[1..], b[1..], d - 1);
      assert Less(SequenceT(t), SequenceV(a[1..]), SequenceV(b[1..])) <==> LessElements(t, a[1..], b[1..]);
    }
  }

  /** A sequence is below every longer one that begins with it. */
  lemma {:induction false} PrefixBelow(t: Type, a: seq<Value>, more: seq<Value>)
    requires KeyType(t) && Shaped(SequenceT(t), SequenceV(a + more)) && more != [] && Shaped(SequenceT(t), SequenceV(a))
    ensures Less(SequenceT(t), SequenceV(a), SequenceV(a + more))
    decreases |a|
  {
    if a != [] {
      LessTotal(t, a[0], a[0]);
      assert (a + more)[0] == a[0] && (a + more)[1..] == a[1..] + more;
      assert forall i :: 0 <= i < |a[1..] + more| ==> (a[1..] + more)[i] == (a + more)[i + 1];
      PrefixBelow(t, a[1..], more);
    }
  }
}
