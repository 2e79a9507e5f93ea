/**
 Reading back what was written gives the value and leaves exactly the bytes that followed it; and
 whatever can be read at all can be written, and then reads back the same.
 */
module CodecRoundTrip {
  import opened ByteStrings
  import opened Wire
  import opened Codec
  import opened CodecOrder

  /** `bs` followed by anything reads as `v`. */
  ghost predicate Encodes(t: Type, v: Value, bs: seq<byte>)
    requires LegalType(t)
  {
    forall rest :: Unmarshal(t, bs + rest) == Ok(v, rest)
  }

  lemma {:induction false} RoundTrip(t: Type, v: Value)
    requires LegalType(t) && Fits(t, v)
    ensures Marshal(t, v).Some? && Encodes(t, v, Marshal(t, v).value)
    decreases t, 2, 0
  {
    RoundTripWith(t, v, []);
    forall rest ensures Unmarshal(t, Marshal(t, v).value + rest) == Ok(v, rest) {
      RoundTripWith(t, v, rest);
    }
  }

  lemma {:induction false} RoundTripWith(t: Type, v: Value, rest: seq<byte>)
    requires LegalType(t) && Fits(t, v)
    ensures Marshal(t, v).Some? && Unmarshal(t, Marshal(t, v).value + rest) == Ok(v, rest)
    decreases t, 2, 0
  {
    match t
    case BoolT =>
      assert ([if v.b then 1 else 0] + rest)[1..] == rest;
    case IntegerT(k) => IntegerRoundTrip(k, v.n, rest);
    case EnumT(count) => EnumRoundTrip(count, v.n, rest);
    case StringT => StringRoundTrip(v.s, rest);
    case StructT(byName, decl) =>
      MembersRoundTrip(t, decl, v.members, Default(t).members, rest);
      var r := UnmarshalMembers(t, decl, Default(t).members, Marshal(t, v).value + rest);
      assert r.value == v.members;
    case SequenceT(e) =>
      ElementsRoundTrip(e, v.elements, [], rest);
      SizedBody(|v.elements|, MarshalElements(e, v.elements).value, rest);
      assert [] + v.elements == v.elements;
    case DictionaryT(kt, vt) =>
      assert [] + v.entries == v.entries;
      EntriesRoundTrip(kt, vt, v.entries, [], rest);
      SizedBody(|v.entries|, MarshalEntries(kt, vt, v.entries).value, rest);
  }

  lemma SizedBody(n: nat, body: seq<byte>, rest: seq<byte>)
    requires n <= INT_MAX
    ensures ParseSize(SizeBytes(n) + body + rest) == Ok(n, body + rest)
  {
    SizeRoundTrip(n, body + rest);
    assert SizeBytes(n) + body + rest == SizeBytes(n) + (body + rest);
  }

  lemma OneByte(n: int, rest: seq<byte>)
    requires 0 <= n <= 255
    ensures ParseByte(WriteSigned(n, 1) + rest) == Ok(n, rest)
  {
    assert Pow(1) == 256;
    assert ToBytes(n, 1) == [n as byte];
    assert (WriteSigned(n, 1) + rest)[1..] == rest;
  }

  lemma Powers()
    ensures Pow(1) == 0x100 && Pow(2) == 0x1_0000 && Pow(4) == 0x1_0000_0000 && Pow(8) == 0x1_0000_0000_0000_0000
  {
    Pow4();
    assert Pow(5) == 256 * Pow(4);
    assert Pow(6) == 256 * Pow(5);
    assert Pow(7) == 256 * Pow(6);
  }

  lemma IntegerRoundTrip(k: Kind, n: int, rest: seq<byte>)
    requires InRange(k, n)
    ensures Marshal(IntegerT(k), IntegerV(n)).Some?
    ensures Unmarshal(IntegerT(k), Marshal(IntegerT(k), IntegerV(n)).value + rest) == Ok(IntegerV(n), rest)
  {
    Powers();
    if k.Byte? { OneByte(n, rest); } else { SignedThenRest(n, Width(k), rest); }
  }

  lemma EnumRoundTrip(count: nat, n: int, rest: seq<byte>)
    requires LegalType(EnumT(count)) && Fits(EnumT(count), EnumV(n))
    ensures Unmarshal(EnumT(count), Marshal(EnumT(count), EnumV(n)).value + rest) == Ok(EnumV(n), rest)
  {
    if count <= 127 { OneByte(n, rest); } else { SignedThenRest(n, EnumWidth(count), rest); }
  }

  /** Every enumerator fits the width of its enum. */
  lemma EnumeratorsFit(count: nat, n: int)
    requires LegalType(EnumT(count)) && 0 <= n < count
    ensures Fits(EnumT(count), EnumV(n))
  {
    Powers();
  }

  /** Each declared member comes back in its place. */
  lemma {:induction false} MembersRoundTrip(t: Type, decl: seq<nat>, members: seq<Value>, start: seq<Value>, rest: seq<byte>)
    requires t.StructT? && LegalType(t) && Fits(t, StructV(members)) && Shaped(t, StructV(start))
    requires forall i :: 0 <= i < |decl| ==> decl[i] < |t.byName|
    ensures MarshalMembers(t, decl, members).Some?
    ensures var r := UnmarshalMembers(t, decl, start, MarshalMembers(t, decl, members).value + rest);
      r.Ok? && r.rest == rest && |r.value| == |members|
      && forall i :: 0 <= i < |members| ==> r.value[i] == if i in decl then members[i] else start[i]
    decreases t, 1, |decl|
  {
    if decl == [] {
      assert [] + rest == rest;
    } else {
      var i := decl[0];
      MembersRoundTrip(t, decl[1..], members, start[i := members[i]], rest);
      var tail := MarshalMembers(t, decl[1..], members).value;
      RoundTripWith(t.byName[i], members[i], tail + rest);
      var head := Marshal(t.byName[i], members[i]).value;
      assert head + tail + rest == head + (tail + rest);
      assert forall j :: j in decl <==> j == i || j in decl[1..];
    }
  }

  lemma {:induction false} ElementsRoundTrip(t: Type, vs: seq<Value>, before: seq<Value>, rest: seq<byte>)
    requires LegalType(t) && (forall i :: 0 <= i < |vs| ==> Shaped(t, vs[i]) && Fits(t, vs[i])) && forall i :: 0 <= i < |before| ==> Shaped(t, before[i])
    ensures MarshalElements(t, vs).Some?
    ensures UnmarshalElements(t, |vs|, before, MarshalElements(t, vs).value + rest) == Ok(before + vs, rest)
    decreases t, 3, |vs|
  {
    if vs == [] {
      assert [] + rest == rest && before + vs == before;
    } else {
      var v, more := vs[0], vs[1..];
      Regroup(before, [v], more);
      assert vs == [v] + more;
      ElementsRoundTrip(t, more, before + [v], rest);
      var tail := MarshalElements(t, more);
      RoundTripWith(t, v, tail.value + rest);
      Regroup(Marshal(t, v).value, tail.value, rest);
    }
  }

  lemma Regroup<T>(a: seq<T>, b: seq<T>, c: seq<T>)
    ensures a + b + c == a + (b + c)
  {
  }

  lemma {:induction false} EntriesRoundTrip(kt: Type, vt: Type, es: seq<(Value, Value)>, before: seq<(Value, Value)>, rest: seq<byte>)
    requires LegalType(kt) && LegalType(vt) && KeyType(kt)
    requires Shaped(DictionaryT(kt, vt), DictionaryV(es))
    requires forall i :: 0 <= i < |es| ==> Fits(kt, es[i].0) && Fits(vt, es[i].1)
    requires Shaped(DictionaryT(kt, vt), DictionaryV(before))
    requires Shaped(DictionaryT(kt, vt), DictionaryV(before + es))
    requires Sorted(kt, before + es)
    ensures MarshalEntries(kt, vt, es).Some?
    ensures UnmarshalEntries(kt, vt, |es|, before, MarshalEntries(kt, vt, es).value + rest) == Ok(before + es, rest)
    decreases DictionaryT(kt, vt), 1, |es|
  {
    if es == [] {
      assert [] + rest == rest && before + es == before;
    } else {
      var e, more := es[0], es[1..];
      EntriesSplit(kt, vt, es, before);
      EntriesRoundTrip(kt, vt, more, before + [e], rest);
      PairRoundTrip(kt, vt, e, MarshalEntries(kt, vt, more).value + rest);
      EntriesStep(kt, vt, es, before, rest);
    }
  }

  lemma EntriesSplit(kt: Type, vt: Type, es: seq<(Value, Value)>, before: seq<(Value, Value)>)
    requires es != [] && Shaped(DictionaryT(kt, vt), DictionaryV(before + es)) && Sorted(kt, before + es)
    ensures before + [es[0]] + es[1..] == before + es
    ensures Shaped(DictionaryT(kt, vt), DictionaryV(before + [es[0]]))
    ensures Shaped(kt, es[0].0) && forall i :: 0 <= i < |before| ==> Shaped(kt, before[i].0) && Less(kt, before[i].0, es[0].0)
  {
    assert es == [es[0]] + es[1..];
    Regroup(before, [es[0]], es[1..]);
    AllBelow(kt, before, es[0], es[1..]);
    assert forall i :: 0 <= i < |before + [es[0]]| ==> (before + [es[0]])[i] == (before + es)[i];
  }

  lemma EntriesStep(kt: Type, vt: Type, es: seq<(Value, Value)>, before: seq<(Value, Value)>, rest: seq<byte>)
    requires LegalType(kt) && LegalType(vt) && KeyType(kt) && es != []
    requires Shaped(DictionaryT(kt, vt), DictionaryV(es))
    requires Shaped(DictionaryT(kt, vt), DictionaryV(before))
    requires forall i :: 0 <= i < |before| ==> Less(kt, before[i].0, es[0].0)
    requires MarshalPair(kt, vt, es[0]).Some? && MarshalEntries(kt, vt, es[1..]).Some?
    requires UnmarshalPair(kt, vt, MarshalPair(kt, vt, es[0]).value + (MarshalEntries(kt, vt, es[1..]).value + rest))
             == Ok(es[0], MarshalEntries(kt, vt, es[1..]).value + rest)
    requires UnmarshalEntries(kt, vt, |es| - 1, before + [es[0]], MarshalEntries(kt, vt, es[1..]).value + rest)
             == Ok(before + es, rest)
    ensures MarshalEntries(kt, vt, es).Some?
    ensures UnmarshalEntries(kt, vt, |es|, before, MarshalEntries(kt, vt, es).value + rest) == Ok(before + es, rest)
  {
    InsertLast(kt, before, es[0].0, es[0].1);
    Regroup(MarshalPair(kt, vt, es[0]).value, MarshalEntries(kt, vt, es[1..]).value, rest);
  }

  lemma AllBelow(t: Type, before: seq<(Value, Value)>, e: (Value, Value), more: seq<(Value, Value)>)
    requires forall i :: 0 <= i < |before + [e] + more| ==> Shaped(t, (before + [e] + more)[i].0)
    requires Sorted(t, before + [e] + more)
    ensures Shaped(t, e.0) && forall i :: 0 <= i < |before| ==> Shaped(t, before[i].0) && Less(t, before[i].0, e.0)
  {
    var all := before + [e] + more;
    assert all[|before|] == e;
    assert forall i :: 0 <= i < |before| ==> all[i] == before[i];
  }

  lemma {:induction false} PairRoundTrip(kt: Type, vt: Type, e: (Value, Value), rest: seq<byte>)
    requires LegalType(kt) && LegalType(vt) && Fits(kt, e.0) && Fits(vt, e.1)
    ensures MarshalPair(kt, vt, e).Some?
    ensures UnmarshalPair(kt, vt, MarshalPair(kt, vt, e).value + rest) == Ok(e, rest)
    decreases DictionaryT(kt, vt), 0, 0
  {
    RoundTripWith(vt, e.1, rest);
    var tail := Marshal(vt, e.1);
    RoundTripWith(kt, e.0, tail.value + rest);
    Regroup(Marshal(kt, e.0).value, tail.value, rest);
  }

  /** No encoding is the beginning of another, and different values have different encodings. */
  lemma Unambiguous(t: Type, v: Value, w: Value, after: seq<byte>, after': seq<byte>)
    requires LegalType(t) && Fits(t, v) && Fits(t, w)
    requires Marshal(t, v).Some? && Marshal(t, w).Some? ==> Marshal(t, v).value + after == Marshal(t, w).value + after'
    ensures v == w && after == after'
  {
    RoundTripWith(t, v, after);
    RoundTripWith(t, w, after');
  }

  /****** Any bytes ******/

  lemma {:induction false} DefaultFits(t: Type)
    requires LegalType(t)
    ensures Fits(t, Default(t))
  {
    Powers();
    if t.StructT? {
      forall i | 0 <= i < |t.byName| ensures Fits(t.byName[i], Default(t.byName[i])) {
        DefaultFits(t.byName[i]);
      }
    }
  }

  /** Whatever bytes are read, the value has its numbers in range and its dictionaries in order, with no key twice. */
  lemma {:induction false} ReadFits(t: Type, s: seq<byte>)
    requires LegalType(t) && Unmarshal(t, s).Ok?
    ensures Fits(t, Unmarshal(t, s).value)
    decreases t, 2, 0
  {
    match t
    case BoolT =>
    case IntegerT(k) => IntegerFits(k, s);
    case EnumT(count) => if count > 127 { ReadSignedFits(s[..EnumWidth(count)]); }
    case StringT => ParsedSizeFits(s);
    case StructT(_, decl) =>
      DefaultFits(t);
      MembersFit(t, decl, Default(t).members, s);
    case SequenceT(e) =>
      ParsedSizeFits(s);
      ElementsFit(e, ParseSize(s).value, [], ParseSize(s).rest);
    case DictionaryT(kt, vt) =>
      ParsedSizeFits(s);
      EntriesFit(kt, vt, ParseSize(s).value, [], ParseSize(s).rest);
  }

  lemma IntegerFits(k: Kind, s: seq<byte>)
    requires Unmarshal(IntegerT(k), s).Ok?
    ensures Fits(IntegerT(k), Unmarshal(IntegerT(k), s).value)
  {
    Powers();
    if !k.Byte? { ReadSignedFits(s[..Width(k)]); }
  }

  lemma {:induction false} MembersFit(t: Type, decl: seq<nat>, members: seq<Value>, s: seq<byte>)
    requires t.StructT? && LegalType(t) && Fits(t, StructV(members))
    requires forall i :: 0 <= i < |decl| ==> decl[i] < |t.byName|
    requires UnmarshalMembers(t, decl, members, s).Ok?
    ensures Fits(t, StructV(UnmarshalMembers(t, decl, members, s).value))
    decreases t, 1, |decl|
  {
    if decl != [] {
      ReadFits(t.byName[decl[0]], s);
      var r := Unmarshal(t.byName[decl[0]], s);
      MembersFit(t, decl[1..], members[decl[0] := r.value], r.rest);
    }
  }

  lemma {:induction false} ElementsFit(t: Type, n: nat, vs: seq<Value>, s: seq<byte>)
    requires LegalType(t) && forall i :: 0 <= i < |vs| ==> Shaped(t, vs[i]) && Fits(t, vs[i])
    requires UnmarshalElements(t, n, vs, s).Ok?
    ensures forall i :: 0 <= i < |vs| + n ==> Fits(t, UnmarshalElements(t, n, vs, s).value[i])
    decreases t, 3, n
  {
    if n != 0 {
      ReadFits(t, s);
      ElementsFit(t, n - 1, vs + [Unmarshal(t, s).value], Unmarshal(t, s).rest);
    }
  }

  /** Reading entries in any order, with any repetitions, leaves them sorted. */
  lemma {:induction false} EntriesFit(kt: Type, vt: Type, n: nat, es: seq<(Value, Value)>, s: seq<byte>)
    requires LegalType(kt) && LegalType(vt) && KeyType(kt)
    requires Shaped(DictionaryT(kt, vt), DictionaryV(es))
    requires forall i :: 0 <= i < |es| ==> Fits(kt, es[i].0) && Fits(vt, es[i].1)
    requires Sorted(kt, es) && UnmarshalEntries(kt, vt, n, es, s).Ok?
    ensures var r := UnmarshalEntries(kt, vt, n, es, s).value;
      |r| <= |es| + n && Sorted(kt, r) && forall i :: 0 <= i < |r| ==> Fits(kt, r[i].0) && Fits(vt, r[i].1)
    decreases DictionaryT(kt, vt), 1, n
  {
    if n != 0 {
      var p := UnmarshalPair(kt, vt, s);
      ReadFits(kt, s);
      ReadFits(vt, Unmarshal(kt, s).rest);
      InsertSorted(kt, es, p.value.0, p.value.1);
      var es' := Insert(kt, es, p.value.0, p.value.1);
      forall i | 0 <= i < |es'| ensures Shaped(vt, es'[i].1) && Fits(kt, es'[i].0) && Fits(vt, es'[i].1) {
        assert es'[i] == p.value || es'[i] in es;
      }
      EntriesFit(kt, vt, n - 1, es', p.rest);
    }
  }

  /** What could be read can be written again, and then reads as the same value, whatever follows. */
  lemma Rereads(t: Type, s: seq<byte>)
    requires LegalType(t) && Unmarshal(t, s).Ok?
    ensures var v := Unmarshal(t, s).value;
      Marshal(t, v).Some? && Encodes(t, v, Marshal(t, v).value)
  {
    ReadFits(t, s);
    RoundTrip(t, Unmarshal(t, s).value);
  }

}
