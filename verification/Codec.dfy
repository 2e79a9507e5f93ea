/**
 The FreezeScript data codec: values of Slice types written to and read from a byte stream.
 A struct is a map from member names to values. Here its members are listed in name order, the
 order of that map, and `decl` gives the order of declaration, in which they are written.
 */
module Codec {
  import opened EvictorTypes
  import opened ByteStrings
  import opened Wire

  /** The builtin integer types. */
  datatype Kind = Byte | Short | Int | Long

  datatype Type =
    | BoolT
    | IntegerT(kind: Kind)
    | EnumT(count: nat)
    | StringT
    | StructT(byName: seq<Type>, decl: seq<nat>)
    | SequenceT(element: Type)
    | DictionaryT(key: Type, value: Type)

  datatype Value =
    | BoolV(b: bool)
    | IntegerV(n: int)
    | EnumV(n: int)
    | StringV(s: seq<byte>)
    | StructV(members: seq<Value>)
    | SequenceV(elements: seq<Value>)
    | DictionaryV(entries: seq<(Value, Value)>)

  /** Types that Slice accepts: every member is declared, and dictionaries have legal keys. */
  predicate LegalType(t: Type) {
    match t
    case BoolT => true
    case IntegerT(_) => true
    case EnumT(count) => 1 <= count <= INT_MAX
    case StringT => true
    case StructT(byName, decl) =>
      && (forall i :: 0 <= i < |decl| ==> decl[i] < |byName|)
      && (forall i :: 0 <= i < |byName| ==> i in decl)
      && (forall i :: 0 <= i < |byName| ==> LegalType(byName[i]))
    case SequenceT(e) => LegalType(e)
    case DictionaryT(k, v) => LegalType(k) && LegalType(v) && KeyType(k)
  }

  /** legalKeyType: no dictionary inside a key. */
  predicate KeyType(t: Type) {
    match t
    case BoolT => true
    case IntegerT(_) => true
    case EnumT(_) => true
    case StringT => true
    case StructT(byName, _) => forall i :: 0 <= i < |byName| ==> KeyType(byName[i])
    case SequenceT(e) => KeyType(e)
    case DictionaryT(_, _) => false
  }

  /** The value has the form of its type, whatever its numbers are. */
  predicate Shaped(t: Type, v: Value) {
    match t
    case BoolT => v.BoolV?
    case IntegerT(_) => v.IntegerV?
    case EnumT(_) => v.EnumV?
    case StringT => v.StringV?
    case StructT(byName, _) =>
      v.StructV? && |v.members| == |byName| && forall i :: 0 <= i < |byName| ==> Shaped(byName[i], v.members[i])
    case SequenceT(e) =>
      v.SequenceV? && forall i :: 0 <= i < |v.elements| ==> Shaped(e, v.elements[i])
    case DictionaryT(kt, vt) =>
      v.DictionaryV? && forall i :: 0 <= i < |v.entries| ==> Shaped(kt, v.entries[i].0) && Shaped(vt, v.entries[i].1)
  }

  function Width(k: Kind): nat {
    match k
    case Byte => 1
    case Short => 2
    case Int => 4
    case Long => 8
  }

  /** rangeCheck; a long has no check because its type has no other values. */
  predicate InRange(k: Kind, n: int) {
    match k
    case Byte => 0 <= n <= 255
    case Short => -0x8000 <= n <= 0x7FFF
    case Int => -0x8000_0000 <= n <= 0x7FFF_FFFF
    case Long => -0x8000_0000_0000_0000 <= n <= 0x7FFF_FFFF_FFFF_FFFF
  }

  /** The values of type `t` that exist: numbers in range, sizes that an Int can count, dictionaries in key order. An enum may hold any number of its width. */
  predicate Fits(t: Type, v: Value) {
    Shaped(t, v) &&
    match t
    case BoolT => true
    case IntegerT(k) => InRange(k, v.n)
    case EnumT(count) => if count <= 127 then 0 <= v.n <= 255 else FitsIn(v.n, EnumWidth(count))
    case StringT => |v.s| <= INT_MAX
    case StructT(byName, _) => forall i :: 0 <= i < |byName| ==> Fits(byName[i], v.members[i])
    case SequenceT(e) => |v.elements| <= INT_MAX && forall i :: 0 <= i < |v.elements| ==> Fits(e, v.elements[i])
    case DictionaryT(kt, vt) =>
      && |v.entries| <= INT_MAX
      && (forall i :: 0 <= i < |v.entries| ==> Fits(kt, v.entries[i].0) && Fits(vt, v.entries[i].1))
      && Sorted(kt, v.entries)
  }

  /****** The order of dictionary keys ******/

  /** Data::operator<. */
  predicate Less(t: Type, a: Value, b: Value)
    requires Shaped(t, a) && Shaped(t, b)
    decreases t, 2, 0
  {
    match t
    case BoolT => !a.b && b.b
    case IntegerT(_) => a.n < b.n
    case EnumT(_) => a.n < b.n
    case StringT => Lt(a.s, b.s)
    case StructT(byName, _) => LessMembers(t, a.members, b.members, 0)
    case SequenceT(e) => LessElements(e, a.elements, b.elements)
    case DictionaryT(_, _) => false   // not a key
  }

  /** Members in name order, from the `i`-th on. */
  predicate LessMembers(t: Type, a: seq<Value>, b: seq<Value>, i: nat)
    requires t.StructT? && Shaped(t, StructV(a)) && Shaped(t, StructV(b)) && i <= |a|
    decreases t, 1, |a| - i
  {
    i < |a| &&
    (Less(t.byName[i], a[i], b[i])
     || (!Less(t.byName[i], b[i], a[i]) && LessMembers(t, a, b, i + 1)))
  }

  predicate LessElements(t: Type, a: seq<Value>, b: seq<Value>)
    requires forall i :: 0 <= i < |a| ==> Shaped(t, a[i])
    requires forall i :: 0 <= i < |b| ==> Shaped(t, b[i])
    decreases t, 3, |a|
  {
    b != [] &&
    (a == [] || Less(t, a[0], b[0]) || (!Less(t, b[0], a[0]) && LessElements(t, a[1..], b[1..])))
  }

  predicate Sorted(t: Type, es: seq<(Value, Value)>)
    requires forall i :: 0 <= i < |es| ==> Shaped(t, es[i].0)
  {
    forall i, j :: 0 <= i < j < |es| ==> Less(t, es[i].0, es[j].0)
  }

  /** map::insert: an entry with the same key stays as it is. */
  function Insert(t: Type, es: seq<(Value, Value)>, k: Value, v: Value): (r: seq<(Value, Value)>)
    requires Shaped(t, k) && forall i :: 0 <= i < |es| ==> Shaped(t, es[i].0)
    ensures forall i :: 0 <= i < |r| ==> r[i] == (k, v) || r[i] in es
    ensures |r| <= |es| + 1
    ensures forall i :: 0 <= i < |r| ==> Shaped(t, r[i].0)
  {
    if es == [] || Less(t, k, es[0].0) then [(k, v)] + es
    else if Less(t, es[0].0, k) then [es[0]] + Insert(t, es[1..], k, v)
    else es
  }

  /****** Writing ******/

  /** marshal; None is the error of rangeCheck. */
  function Marshal(t: Type, v: Value): Option<seq<byte>>
    requires LegalType(t) && Shaped(t, v)
    decreases t, 2, 0
  {
    match t
    case BoolT => Some([if v.b then 1 else 0])
    case IntegerT(k) => if InRange(k, v.n) then Some(WriteSigned(v.n, Width(k))) else None
    case EnumT(count) => Some(WriteSigned(v.n, EnumWidth(count)))
    case StringT => Some(StringBytes(v.s))
    case StructT(_, decl) => MarshalMembers(t, decl, v.members)
    case SequenceT(e) => Then(SizeBytes(|v.elements|), MarshalElements(e, v.elements))
    case DictionaryT(kt, vt) => Then(SizeBytes(|v.entries|), MarshalEntries(kt, vt, v.entries))
  }

  function EnumWidth(count: nat): nat {
    if count <= 127 then 1 else if count <= 32767 then 2 else 4
  }

  function Then(a: seq<byte>, b: Option<seq<byte>>): Option<seq<byte>> {
    if b.None? then None else Some(a + b.value)
  }

  function Both(a: Option<seq<byte>>, b: Option<seq<byte>>): Option<seq<byte>> {
    if a.None? then None else Then(a.value, b)
  }

  function MarshalMembers(t: Type, decl: seq<nat>, members: seq<Value>): Option<seq<byte>>
    requires t.StructT? && LegalType(t) && Shaped(t, StructV(members))
    requires forall i :: 0 <= i < |decl| ==> decl[i] < |t.byName|
    decreases t, 1, |decl|
  {
    if decl == [] then Some([])
    else Both(Marshal(t.byName[decl[0]], members[decl[0]]), MarshalMembers(t, decl[1..], members))
  }

  function MarshalElements(t: Type, vs: seq<Value>): Option<seq<byte>>
    requires LegalType(t) && forall i :: 0 <= i < |vs| ==> Shaped(t, vs[i])
    decreases t, 3, |vs|
  {
    if vs == [] then Some([])
    else Both(Marshal(t, vs[0]), MarshalElements(t, vs[1..]))
  }

  function MarshalEntries(kt: Type, vt: Type, es: seq<(Value, Value)>): Option<seq<byte>>
    requires LegalType(kt) && LegalType(vt)
    requires Shaped(DictionaryT(kt, vt), DictionaryV(es))
    decreases DictionaryT(kt, vt), 1, |es|
  {
    if es == [] then Some([])
    else Both(MarshalPair(kt, vt, es[0]), MarshalEntries(kt, vt, es[1..]))
  }

  function MarshalPair(kt: Type, vt: Type, e: (Value, Value)): Option<seq<byte>>
    requires LegalType(kt) && LegalType(vt) && Shaped(kt, e.0) && Shaped(vt, e.1)
    decreases DictionaryT(kt, vt), 0, 0
  {
    Both(Marshal(kt, e.0), Marshal(vt, e.1))
  }

  /****** Reading ******/

  /** The value a freshly created Data of the type holds. */
  function Default(t: Type): (v: Value)
    ensures Shaped(t, v)
  {
    match t
    case BoolT => BoolV(false)
    case IntegerT(_) => IntegerV(0)
    case EnumT(_) => EnumV(0)
    case StringT => StringV([])
    case StructT(byName, _) => StructV(seq(|byName|, i requires 0 <= i < |byName| => Default(byName[i])))
    case SequenceT(_) => SequenceV([])
    case DictionaryT(_, _) => DictionaryV([])
  }

  function Map<S, T>(p: Parsed<S>, f: S -> T): Parsed<T> {
    match p
    case Bad => Bad
    case Ok(v, rest) => Ok(f(v), rest)
  }

  function Unmarshal(t: Type, s: seq<byte>): (r: Parsed<Value>)
    requires LegalType(t)
    ensures r.Ok? ==> Shaped(t, r.value)
    decreases t, 2, 0
  {
    match t
    case BoolT => Map(ParseByte(s), n => BoolV(n != 0))
    case IntegerT(Byte) => Map(ParseByte(s), n => IntegerV(n))
    case IntegerT(k) => Map(ParseSigned(s, Width(k)), n => IntegerV(n))
    case EnumT(count) =>
      if count <= 127 then Map(ParseByte(s), n => EnumV(n))
      else Map(ParseSigned(s, EnumWidth(count)), n => EnumV(n))
    case StringT => Map(ParseString(s), b => StringV(b))
    case StructT(byName, decl) =>
      (match UnmarshalMembers(t, decl, Default(t).members, s)
       case Bad => Bad
       case Ok(members, rest) => Ok(StructV(members), rest))
    case SequenceT(e) =>
      (match ParseSize(s)
       case Bad => Bad
       case Ok(n, rest) =>
         match UnmarshalElements(e, n, [], rest)
         case Bad => Bad
         case Ok(vs, rest') => Ok(SequenceV(vs), rest'))
    case DictionaryT(kt, vt) =>
      (match ParseSize(s)
       case Bad => Bad
       case Ok(n, rest) =>
         match UnmarshalEntries(kt, vt, n, [], rest)
         case Bad => Bad
         case Ok(es, rest') => Ok(DictionaryV(es), rest'))
  }

  /** Read the members in order of declaration, each into its place. */
  function UnmarshalMembers(t: Type, decl: seq<nat>, members: seq<Value>, s: seq<byte>): (r: Parsed<seq<Value>>)
    requires t.StructT? && LegalType(t) && Shaped(t, StructV(members))
    requires forall i :: 0 <= i < |decl| ==> decl[i] < |t.byName|
    ensures r.Ok? ==> Shaped(t, StructV(r.value))
    decreases t, 1, |decl|
  {
    if decl == [] then Ok(members, s)
    else match Unmarshal(t.byName[decl[0]], s)
      case Bad => Bad
      case Ok(v, rest) => UnmarshalMembers(t, decl[1..], members[decl[0] := v], rest)
  }

  function UnmarshalElements(t: Type, n: nat, vs: seq<Value>, s: seq<byte>): (r: Parsed<seq<Value>>)
    requires LegalType(t) && forall i :: 0 <= i < |vs| ==> Shaped(t, vs[i])
    ensures r.Ok? ==> |r.value| == |vs| + n && forall i :: 0 <= i < |r.value| ==> Shaped(t, r.value[i])
    decreases t, 3, n
  {
    if n == 0 then Ok(vs, s)
    else match Unmarshal(t, s)
      case Bad => Bad
      case Ok(v, rest) => UnmarshalElements(t, n - 1, vs + [v], rest)
  }

  function UnmarshalEntries(kt: Type, vt: Type, n: nat, es: seq<(Value, Value)>, s: seq<byte>): (r: Parsed<seq<(Value, Value)>>)
    requires LegalType(kt) && LegalType(vt)
    requires Shaped(DictionaryT(kt, vt), DictionaryV(es))
    ensures r.Ok? ==> Shaped(DictionaryT(kt, vt), DictionaryV(r.value))
    decreases DictionaryT(kt, vt), 1, n
  {
    if n == 0 then Ok(es, s)
    else match UnmarshalPair(kt, vt, s)
      case Bad => Bad
      case Ok(e, rest) => UnmarshalEntries(kt, vt, n - 1, Insert(kt, es, e.0, e.1), rest)
  }

  function UnmarshalPair(kt: Type, vt: Type, s: seq<byte>): (r: Parsed<(Value, Value)>)
    requires LegalType(kt) && LegalType(vt)
    ensures r.Ok? ==> Shaped(kt, r.value.0) && Shaped(vt, r.value.1)
    decreases DictionaryT(kt, vt), 0, 0
  {
    match Unmarshal(kt, s)
    case Bad => Bad
    case Ok(k, rest) =>
      match Unmarshal(vt, rest)
      case Bad => Bad
      case Ok(v, rest') => Ok((k, v), rest')
  }
}
