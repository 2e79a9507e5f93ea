/**
 marshal and unmarshal of the Data classes as the source runs them: loops that append to a stream or
 advance its cursor. Each does what the function of the same name in Codec says.
 */
module DataStream {
  import opened EvictorTypes
  import opened ByteStrings
  import opened Codec
  import opened BasicStream
  import CodecRoundTrip

  /** `bs` was appended, or nothing could be written. */
  twostate predicate Appends(out: Stream, new ok: bool, new bs: Option<seq<byte>>)
    reads out
  {
    ok == bs.Some? && (ok ==> out.b == old(out.b) + bs.value)
  }

  lemma ThenBoth(done: seq<byte>, head: Option<seq<byte>>, more: Option<seq<byte>>)
    ensures Then([], more) == more
    ensures head.Some? ==> Then(done, Both(head, more)) == Then(done + head.value, more)
  {
    if more.Some? {
      assert [] + more.value == more.value;
      if head.Some? {
        assert done + (head.value + more.value) == done + head.value + more.value;
      }
    }
  }

  /** Data::marshal; false is the error of rangeCheck. */
  method WriteData(out: Stream, t: Type, v: Value) returns (ok: bool)
    requires LegalType(t) && Shaped(t, v)
    modifies out`b
    ensures Appends(out, ok, Marshal(t, v))
    decreases t, 2
  {
    ok := true;
    match t {
      case BoolT => out.WriteByte(if v.b then 1 else 0);
      case IntegerT(k) =>
        if InRange(k, v.n) {
          out.WriteInteger(v.n, Width(k));
        } else {
          ok := false;
        }
      case EnumT(count) => out.WriteInteger(v.n, EnumWidth(count));
      case StringT => out.WriteString(v.s);
      case StructT(_, _) => ok := WriteMembers(out, t, v.members);
      case SequenceT(e) =>
        out.WriteSize(|v.elements|);
        ok := WriteElements(out, e, v.elements);
      case DictionaryT(kt, vt) =>
        out.WriteSize(|v.entries|);
        ok := WriteEntries(out, kt, vt, v.entries);
    }
  }

  method WriteMembers(out: Stream, t: Type, members: seq<Value>) returns (ok: bool)
    requires t.StructT? && LegalType(t) && Shaped(t, StructV(members))
    modifies out`b
    ensures Appends(out, ok, MarshalMembers(t, t.decl, members))
    decreases t, 1
  {
    var p := 0;
    ghost var done: seq<byte> := [];
    assert t.decl[0..] == t.decl;
    ThenBoth([], None, MarshalMembers(t, t.decl, members));
    while p < |t.decl|
      invariant p <= |t.decl| && out.b == old(out.b) + done
      invariant MarshalMembers(t, t.decl, members) == Then(done, MarshalMembers(t, t.decl[p..], members))
    {
      var m := t.decl[p];
      ok := WriteData(out, t.byName[m], members[m]);
      if !ok {
        return;
      }
      ThenBoth(done, Marshal(t.byName[m], members[m]), MarshalMembers(t, t.decl[p + 1..], members));
      done := done + Marshal(t.byName[m], members[m]).value;
      p := p + 1;
    }
    ok := true;
  }

  method WriteElements(out: Stream, t: Type, vs: seq<Value>) returns (ok: bool)
    requires LegalType(t) && forall i :: 0 <= i < |vs| ==> Shaped(t, vs[i])
    modifies out`b
    ensures Appends(out, ok, MarshalElements(t, vs))
    decreases t, 3
  {
    var p := 0;
    ghost var done: seq<byte> := [];
    assert vs[0..] == vs;
    ThenBoth([], None, MarshalElements(t, vs));
    while p < |vs|
      invariant p <= |vs| && out.b == old(out.b) + done
      invariant MarshalElements(t, vs) == Then(done, MarshalElements(t, vs[p..]))
    {
      ok := WriteData(out, t, vs[p]);
      if !ok {
        return;
      }
      ThenBoth(done, Marshal(t, vs[p]), MarshalElements(t, vs[p + 1..]));
      done := done + Marshal(t, vs[p]).value;
      p := p + 1;
    }
    ok := true;
  }

  method WriteEntries(out: Stream, kt: Type, vt: Type, es: seq<(Value, Value)>) returns (ok: bool)
    requires LegalType(kt) && LegalType(vt)
    requires Shaped(DictionaryT(kt, vt), DictionaryV(es))
    modifies out`b
    ensures Appends(out, ok, MarshalEntries(kt, vt, es))
    decreases DictionaryT(kt, vt), 1
  {
    var p := 0;
    ghost var done: seq<byte> := [];
    ghost var goal := MarshalEntries(kt, vt, es);
    assert es[0..] == es;
    ThenBoth([], None, goal);
    while p < |es|
      invariant p <= |es| && out.b == old(out.b) + done
      invariant goal == Then(done, MarshalEntries(kt, vt, es[p..]))
    {
      EntriesFrom(kt, vt, es, p, done);
      ghost var head := MarshalPair(kt, vt, es[p]);
      ok := WritePair(out, kt, vt, es[p]);
      if !ok {
        return;
      }
      done := done + head.value;
      p := p + 1;
    }
    ok := true;
  }

  lemma EntriesFrom(kt: Type, vt: Type, es: seq<(Value, Value)>, p: nat, done: seq<byte>)
    requires LegalType(kt) && LegalType(vt) && p < |es|
    requires Shaped(DictionaryT(kt, vt), DictionaryV(es))
    ensures MarshalPair(kt, vt, es[p]).None? ==> Then(done, MarshalEntries(kt, vt, es[p..])).None?
    ensures MarshalPair(kt, vt, es[p]).Some? ==>
      Then(done, MarshalEntries(kt, vt, es[p..])) == Then(done + MarshalPair(kt, vt, es[p]).value, MarshalEntries(kt, vt, es[p + 1..]))
  {
    assert es[p..][1..] == es[p + 1..];
    ThenBoth(done, MarshalPair(kt, vt, es[p]), MarshalEntries(kt, vt, es[p + 1..]));
  }

  method WritePair(out: Stream, kt: Type, vt: Type, e: (Value, Value)) returns (ok: bool)
    requires LegalType(kt) && LegalType(vt) && Shaped(kt, e.0) && Shaped(vt, e.1)
    modifies out`b
    ensures Appends(out, ok, MarshalPair(kt, vt, e))
    decreases DictionaryT(kt, vt), 0
  {
    ok := WriteData(out, kt, e.0);
    if ok {
      ok := WriteData(out, vt, e.1);
    }
  }

  /** Data::unmarshal. */
  method ReadData(s: Stream, t: Type) returns (r: Option<Value>)
    requires LegalType(t) && s.Valid()
    modifies s`i
    ensures s.Reads(r, Unmarshal(t, old(s.Left())))
    decreases t, 2
  {
    match t {
      case BoolT =>
        var n := s.ReadByte();
        r := if n.None? then None else Some(BoolV(n.value != 0));
      case IntegerT(k) =>
        var n: Option<int>;
        if k.Byte? {
          n := s.ReadByte();
        } else {
          n := s.ReadInteger(Width(k));
        }
        r := if n.None? then None else Some(IntegerV(n.value));
      case EnumT(count) =>
        var n: Option<int>;
        if count <= 127 {
          n := s.ReadByte();
        } else {
          n := s.ReadInteger(EnumWidth(count));
        }
        r := if n.None? then None else Some(EnumV(n.value));
      case StringT =>
        var v := s.ReadString();
        r := if v.None? then None else Some(StringV(v.value));
      case StructT(_, _) =>
        var members := ReadMembers(s, t);
        r := if members.None? then None else Some(StructV(members.value));
      case SequenceT(e) =>
        var size := s.ReadSize();
        if size.None? {
          return None;
        }
        var vs := ReadElements(s, e, size.value);
        r := if vs.None? then None else Some(SequenceV(vs.value));
      case DictionaryT(kt, vt) =>
        var size := s.ReadSize();
        if size.None? {
          return None;
        }
        var es := ReadEntries(s, kt, vt, size.value);
        r := if es.None? then None else Some(DictionaryV(es.value));
    }
  }

  method ReadMembers(s: Stream, t: Type) returns (r: Option<seq<Value>>)
    requires t.StructT? && LegalType(t) && s.Valid()
    modifies s`i
    ensures s.Reads(r, UnmarshalMembers(t, t.decl, Default(t).members, old(s.Left())))
    decreases t, 1
  {
    var p, members := 0, Default(t).members;
    assert t.decl[0..] == t.decl;
    ghost var goal := UnmarshalMembers(t, t.decl, members, s.Left());
    while p < |t.decl|
      invariant p <= |t.decl| && s.Valid() && s.b == old(s.b) && Shaped(t, StructV(members))
      invariant UnmarshalMembers(t, t.decl[p..], members, s.Left()) == goal
    {
      var m := t.decl[p];
      var v := ReadData(s, t.byName[m]);
      if v.None? {
        return None;
      }
      members := members[m := v.value];
      p := p + 1;
    }
    r := Some(members);
  }

  method ReadElements(s: Stream, t: Type, n: nat) returns (r: Option<seq<Value>>)
    requires LegalType(t) && s.Valid()
    modifies s`i
    ensures s.Reads(r, UnmarshalElements(t, n, [], old(s.Left())))
    decreases t, 3
  {
    var vs := [];
    ghost var goal := UnmarshalElements(t, n, vs, s.Left());
    while |vs| < n
      invariant |vs| <= n && s.Valid() && s.b == old(s.b) && forall i :: 0 <= i < |vs| ==> Shaped(t, vs[i])
      invariant UnmarshalElements(t, n - |vs|, vs, s.Left()) == goal
    {
      var v := ReadData(s, t);
      if v.None? {
        return None;
      }
      vs := vs + [v.value];
    }
    r := Some(vs);
  }

  method ReadEntries(s: Stream, kt: Type, vt: Type, n: nat) returns (r: Option<seq<(Value, Value)>>)
    requires LegalType(kt) && LegalType(vt) && s.Valid()
    modifies s`i
    ensures s.Reads(r, UnmarshalEntries(kt, vt, n, [], old(s.Left())))
    decreases DictionaryT(kt, vt), 1
  {
    var p, es := 0, [];
    ghost var goal := UnmarshalEntries(kt, vt, n, es, s.Left());
    while p < n
      invariant p <= n && s.Valid() && s.b == old(s.b)
      invariant Shaped(DictionaryT(kt, vt), DictionaryV(es))
      invariant UnmarshalEntries(kt, vt, n - p, es, s.Left()) == goal
    {
      var e := ReadPair(s, kt, vt);
      if e.None? {
        return None;
      }
      InsertShaped(kt, vt, es, e.value);
      es := Insert(kt, es, e.value.0, e.value.1);
      p := p + 1;
    }
    r := Some(es);
  }

  lemma InsertShaped(kt: Type, vt: Type, es: seq<(Value, Value)>, e: (Value, Value))
    requires Shaped(kt, e.0) && Shaped(vt, e.1) && Shaped(DictionaryT(kt, vt), DictionaryV(es))
    ensures forall i :: 0 <= i < |Insert(kt, es, e.0, e.1)| ==> Shaped(vt, Insert(kt, es, e.0, e.1)[i].1)
  {
    var r := Insert(kt, es, e.0, e.1);
    forall i | 0 <= i < |r| ensures Shaped(vt, r[i].1) {
      assert r[i] == e || r[i] in es;
    }
  }

  method ReadPair(s: Stream, kt: Type, vt: Type) returns (r: Option<(Value, Value)>)
    requires LegalType(kt) && LegalType(vt) && s.Valid()
    modifies s`i
    ensures s.Reads(r, UnmarshalPair(kt, vt, old(s.Left())))
    decreases DictionaryT(kt, vt), 0
  {
    var k := ReadData(s, kt);
    if k.None? {
      return None;
    }
    var v := ReadData(s, vt);
    r := if v.None? then None else Some((k.value, v.value));
  }

  /** Reading from where a value was written gives the value and stops where the writer stopped. */
  method WriteThenRead(s: Stream, t: Type, v: Value) returns (r: Option<Value>)
    requires LegalType(t) && Fits(t, v) && s.Valid() && s.i == |s.b|
    modifies s
    ensures r == Some(v) && s.i == |s.b|
  {
    CodecRoundTrip.RoundTripWith(t, v, []);
    ghost var before := s.b;
    var ok := WriteData(s, t, v);
    assert s.Left() == Marshal(t, v).value + [];
    r := ReadData(s, t);
    assert s.Left() == [];
  }
}
