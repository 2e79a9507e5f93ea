/** What the printer puts out: for each kind of data, token by token, and which members in which order. */
module PrinterOutput {
  import opened EvictorTypes
  import opened Printer

  /****** Only at the end of the output ******/

  /** What visiting `d` puts out depends on what has been numbered, not on what has been put out. */
  ghost function Tokens(heap: Heap, d: Data, v: Visitor): seq<Token>
    requires HeapOK(heap)
  {
    Visit(heap, d, v.(out := [])).out
  }

  /** `w` and `w'` are the same visitor but for what had been put out at the start. */
  ghost predicate SameBut(w: Visitor, w': Visitor, before: seq<Token>) {
    w == w'.(out := before + w'.out)
  }

  /** A visit appends its own tokens and does not change or look at those before. */
  lemma VisitAppends(heap: Heap, d: Data, v: Visitor)
    requires HeapOK(heap)
    ensures Visit(heap, d, v).out == v.out + Tokens(heap, d, v)
  {
    assert v.(out := v.out + []) == v;
    VisitShifted(heap, d, v.(out := []), v.out);
  }

  lemma {:induction false} VisitShifted(heap: Heap, d: Data, v: Visitor, before: seq<Token>)
    requires HeapOK(heap)
    ensures SameBut(Visit(heap, d, v.(out := before + v.out)), Visit(heap, d, v), before)
    decreases Unvisited(heap, v), d, 1
  {
    var v' := v.(out := before + v.out);
    match d
    case Scalar(text) => PutShifted(v', v, Put(text), before);
    case Aggregate(parts) =>
      PartsShifted(heap, parts, v, before);
      PutShifted(VisitParts(heap, parts, v'), VisitParts(heap, parts, v), End, before);
    case ObjectRef(target) => ReferenceShifted(heap, target, v, before);
  }

  lemma {:induction false} ReferenceShifted(heap: Heap, target: Option<nat>, v: Visitor, before: seq<Token>)
    requires HeapOK(heap)
    ensures SameBut(Visit(heap, ObjectRef(target), v.(out := before + v.out)), Visit(heap, ObjectRef(target), v), before)
    decreases Unvisited(heap, v), ObjectRef(target), 0
  {
    var v' := v.(out := before + v.out);
    if target.None? || target.value !in heap {
      PutShifted(v', v, NilRef, before);
    } else if target.value in v.history {
      PutShifted(v', v, Again(v.history[target.value]), before);
    } else {
      var n, n' := Number(v, target.value), Number(v', target.value);
      var parts := ObjectParts(heap[target.value]);
      FewerUnvisited(heap, v, n);
      NumberShifted(v, target.value, before);
      PartsShifted(heap, parts, n, before);
      PutShifted(VisitParts(heap, parts, n'), VisitParts(heap, parts, n), End, before);
    }
  }

  lemma NumberShifted(v: Visitor, id: nat, before: seq<Token>)
    ensures Number(v.(out := before + v.out), id) == Number(v, id).(out := before + Number(v, id).out)
  {
    assert before + v.out + [Begin(id, v.count)] == before + (v.out + [Begin(id, v.count)]);
  }

  lemma PutShifted(w: Visitor, w': Visitor, t: Token, before: seq<Token>)
    requires SameBut(w, w', before)
    ensures SameBut(Put1(w, t), Put1(w', t), before)
  {
    assert before + w'.out + [t] == before + (w'.out + [t]);
  }

  lemma {:induction false} PartsShifted(heap: Heap, parts: Parts, v: Visitor, before: seq<Token>)
    requires HeapOK(heap)
    ensures SameBut(VisitParts(heap, parts, v.(out := before + v.out)), VisitParts(heap, parts, v), before)
    decreases Unvisited(heap, v), parts, 1
  {
    match parts
    case NoParts =>
    case Parts(head, tail) =>
      VisitShifted(heap, head, v, before);
      PartsShifted(heap, tail, Visit(heap, head, v), before);
  }

  /****** What is put out ******/

  /** From `v` to `w` a member is printed: its name, and then what its value puts out. */
  ghost predicate MemberPrinted(heap: Heap, name: string, d: Data, v: Visitor, w: Visitor)
    requires HeapOK(heap)
  {
    var named := v.(out := v.out + [Put(name)]);
    w == Visit(heap, d, named) && w.out == v.out + [Put(name)] + Tokens(heap, d, v)
  }

  /** Visitors before, between and after the members. */
  ghost predicate MembersPrinted(heap: Heap, names: seq<string>, members: map<string, Data>, vs: seq<Visitor>)
    requires HeapOK(heap) && forall m | m in names :: m in members
  {
    && |vs| == |names| + 1
    && forall i :: 0 <= i < |names| ==> MemberPrinted(heap, names[i], members[names[i]], vs[i], vs[i + 1])
  }

  lemma OneMemberOutput(heap: Heap, name: string, d: Data, v: Visitor)
    requires HeapOK(heap)
    ensures MemberPrinted(heap, name, d, v, Visit(heap, d, Put1(v, Put(name))))
  {
    VisitAppends(heap, d, Put1(v, Put(name)));
    assert v.(out := []) == Put1(v, Put(name)).(out := []);
  }

  lemma FirstMember(heap: Heap, names: seq<string>, members: map<string, Data>, v: Visitor, vs: seq<Visitor>)
    requires HeapOK(heap) && (forall m | m in names :: m in members) && names != []
    requires MembersPrinted(heap, names[1..], members, vs) && MemberPrinted(heap, names[0], members[names[0]], v, vs[0])
    ensures MembersPrinted(heap, names, members, [v] + vs)
  {
    forall i | 0 <= i < |names| ensures MemberPrinted(heap, names[i], members[names[i]], ([v] + vs)[i], ([v] + vs)[i + 1]) {
      if i > 0 {
        assert MemberPrinted(heap, names[1..][i - 1], members[names[1..][i - 1]], vs[i - 1], vs[i - 1 + 1]);
      }
    }
  }

  /** The visitor after each member. */
  ghost function Between(heap: Heap, names: seq<string>, members: map<string, Data>, v: Visitor): (vs: seq<Visitor>)
    requires HeapOK(heap) && forall m | m in names :: m in members
    ensures |vs| == |names| + 1 && vs[0] == v
  {
    [v] + if names == [] then [] else Between(heap, names[1..], members, Visit(heap, members[names[0]], Put1(v, Put(names[0]))))
  }

  lemma {:induction false} MembersOutput(heap: Heap, names: seq<string>, members: map<string, Data>, v: Visitor)
    requires HeapOK(heap) && forall m | m in names :: m in members
    ensures MembersPrinted(heap, names, members, Between(heap, names, members, v))
    ensures Between(heap, names, members, v)[|names|] == VisitParts(heap, MemberParts(names, members), v)
  {
    if names != [] {
      var w := Visit(heap, members[names[0]], Put1(v, Put(names[0])));
      OneMemberOutput(heap, names[0], members[names[0]], v);
      MembersOutput(heap, names[1..], members, w);
      FirstMember(heap, names, members, v, Between(heap, names[1..], members, w));
      MemberPartsStep(heap, names, members, v);
    }
  }

  lemma MemberPartsStep(heap: Heap, names: seq<string>, members: map<string, Data>, v: Visitor)
    requires HeapOK(heap) && (forall m | m in names :: m in members) && names != []
    ensures VisitParts(heap, MemberParts(names, members), v)
         == VisitParts(heap, MemberParts(names[1..], members), Visit(heap, members[names[0]], Put1(v, Put(names[0]))))
  {
    var more := Parts(members[names[0]], MemberParts(names[1..], members));
    assert MemberParts(names, members) == Parts(Scalar(names[0]), more);
    assert Visit(heap, Scalar(names[0]), v) == Put1(v, Put(names[0]));
  }

  /** The members are printed between `v` and `w`. */
  ghost predicate PrintedBetween(heap: Heap, names: seq<string>, members: map<string, Data>, v: Visitor, w: Visitor)
    requires HeapOK(heap) && forall m | m in names :: m in members
  {
    exists vs :: MembersPrinted(heap, names, members, vs) && vs[0] == v && vs[|names|] == w
  }

  lemma PartsBetween(heap: Heap, names: seq<string>, members: map<string, Data>, v: Visitor)
    requires HeapOK(heap) && forall m | m in names :: m in members
    ensures PrintedBetween(heap, names, members, v, VisitParts(heap, MemberParts(names, members), v))
  {
    MembersOutput(heap, names, members, v);
  }

  lemma NewObjectVisit(heap: Heap, id: nat, v: Visitor)
    requires HeapOK(heap) && id in heap && id !in v.history
    ensures Visit(heap, ObjectRef(Some(id)), v) == Put1(VisitParts(heap, ObjectParts(heap[id]), Number(v, id)), End)
  {
  }

  /** Printing the members from `start` on, and then the end, leads to `w`. */
  ghost predicate ObjectPrinted(heap: Heap, names: seq<string>, members: map<string, Data>, start: Visitor, w: Visitor)
    requires HeapOK(heap) && forall m | m in names :: m in members
  {
    exists u :: PrintedBetween(heap, names, members, start, u) && w == u.(out := u.out + [End])
  }

  /**
   An object met for the first time gets the next number, and then come its printed members in order, each
   with its name and then its value, and the end.
   */
  lemma NewObjectOutput(heap: Heap, id: nat, v: Visitor)
    requires HeapOK(heap) && id in heap && id !in v.history
    ensures forall m | m in PrintedMembers(heap[id].classDef) :: m in heap[id].members
    ensures ObjectPrinted(heap, PrintedMembers(heap[id].classDef), heap[id].members,
                          Visitor(v.history[id := v.count], v.count + 1, v.out + [Begin(id, v.count)]),
                          Visit(heap, ObjectRef(Some(id)), v))
  {
    PrintedAreMembers(heap[id].classDef);
    NewObjectVisit(heap, id, v);
    PartsBetween(heap, PrintedMembers(heap[id].classDef), heap[id].members, Number(v, id));
  }

  /** Texts are put out as they are, a reference to nothing as nil, and one to an object met before as its number. */
  lemma ShortOutput(heap: Heap, v: Visitor)
    requires HeapOK(heap)
    ensures forall text :: Visit(heap, Scalar(text), v) == v.(out := v.out + [Put(text)])
    ensures Visit(heap, ObjectRef(None), v) == v.(out := v.out + [NilRef])
    ensures forall id | id in heap && id in v.history :: Visit(heap, ObjectRef(Some(id)), v) == v.(out := v.out + [Again(v.history[id])])
  {
  }

  /** The parts of an aggregate, as a list. */
  function PartList(parts: Parts): seq<Data> {
    match parts
    case NoParts => []
    case Parts(head, tail) => [head] + PartList(tail)
  }

  ghost predicate PartPrinted(heap: Heap, d: Data, v: Visitor, w: Visitor)
    requires HeapOK(heap)
  {
    w == Visit(heap, d, v) && w.out == v.out + Tokens(heap, d, v)
  }

  ghost predicate PartsPrinted(heap: Heap, ds: seq<Data>, vs: seq<Visitor>)
    requires HeapOK(heap)
  {
    |vs| == |ds| + 1 && forall i :: 0 <= i < |ds| ==> PartPrinted(heap, ds[i], vs[i], vs[i + 1])
  }

  ghost function BetweenParts(heap: Heap, ds: seq<Data>, v: Visitor): (vs: seq<Visitor>)
    requires HeapOK(heap)
    ensures |vs| == |ds| + 1 && vs[0] == v
  {
    [v] + if ds == [] then [] else BetweenParts(heap, ds[1..], Visit(heap, ds[0], v))
  }

  lemma {:induction false} BetweenPartsPrinted(heap: Heap, ds: seq<Data>, v: Visitor)
    requires HeapOK(heap)
    ensures PartsPrinted(heap, ds, BetweenParts(heap, ds, v))
  {
    if ds != [] {
      VisitAppends(heap, ds[0], v);
      var vs := BetweenParts(heap, ds[1..], Visit(heap, ds[0], v));
      BetweenPartsPrinted(heap, ds[1..], Visit(heap, ds[0], v));
      forall i | 0 <= i < |ds| ensures PartPrinted(heap, ds[i], ([v] + vs)[i], ([v] + vs)[i + 1]) {
        if i > 0 {
          assert PartPrinted(heap, ds[1..][i - 1], vs[i - 1], vs[i - 1 + 1]);
        }
      }
    }
  }

  lemma {:induction false} PartsOutput(heap: Heap, parts: Parts, v: Visitor)
    requires HeapOK(heap)
    ensures BetweenParts(heap, PartList(parts), v)[|PartList(parts)|] == VisitParts(heap, parts, v)
  {
    match parts
    case NoParts =>
    case Parts(head, tail) =>
      var w := Visit(heap, head, v);
      PartsOutput(heap, tail, w);
      assert PartList(parts) == [head] + PartList(tail);
      BetweenStep(heap, head, PartList(tail), v);
  }

  lemma BetweenStep(heap: Heap, d: Data, ds: seq<Data>, v: Visitor)
    requires HeapOK(heap)
    ensures BetweenParts(heap, [d] + ds, v) == [v] + BetweenParts(heap, ds, Visit(heap, d, v))
  {
    assert ([d] + ds)[1..] == ds;
  }

  /** Printing the parts from `v` on, and then the end, leads to `w`. */
  ghost predicate AggregatePrinted(heap: Heap, ds: seq<Data>, v: Visitor, w: Visitor)
    requires HeapOK(heap)
  {
    exists vs: seq<Visitor> :: PartsPrinted(heap, ds, vs) && vs[0] == v && w == vs[|ds|].(out := vs[|ds|].out + [End])
  }

  /** A struct, sequence or dictionary puts out what its parts put out, in order, and the end. */
  lemma AggregateOutput(heap: Heap, parts: Parts, v: Visitor)
    requires HeapOK(heap)
    ensures AggregatePrinted(heap, PartList(parts), v, Visit(heap, Aggregate(parts), v))
  {
    BetweenPartsPrinted(heap, PartList(parts), v);
    PartsOutput(heap, parts, v);
    AggregateVisit(heap, parts, v);
  }

  lemma AggregateVisit(heap: Heap, parts: Parts, v: Visitor)
    requires HeapOK(heap)
    ensures Visit(heap, Aggregate(parts), v) == Put1(VisitParts(heap, parts, v), End)
  {
  }

  /** An aggregate refers to what its parts refer to, and a reference to its object if there is one. */
  lemma {:induction false} RefsOfParts(heap: Heap, parts: Parts, id: nat)
    ensures id in Refs(heap, Aggregate(parts)) <==> exists d :: d in PartList(parts) && id in Refs(heap, d)
    ensures id in Refs(heap, ObjectRef(Some(id))) <==> id in heap
    decreases parts
  {
    assert Refs(heap, Aggregate(parts)) == RefsIn(heap, parts);
    match parts
    case NoParts =>
      assert RefsIn(heap, NoParts) == {} && PartList(NoParts) == [];
    case Parts(head, tail) =>
      RefsOfParts(heap, tail, id);
      assert Refs(heap, Aggregate(tail)) == RefsIn(heap, tail);
      assert RefsIn(heap, Parts(head, tail)) == Refs(heap, head) + RefsIn(heap, tail);
      assert PartList(Parts(head, tail)) == [head] + PartList(tail);
      assert forall d :: d in PartList(parts) <==> d == head || d in PartList(tail);
  }

  /****** Which members ******/

  /** The class, its first base, that one's first base and so on. */
  function Line(c: ClassDef): (l: seq<ClassDef>)
    ensures l != [] && l[0] == c
  {
    [c] + if c.bases == [] then [] else Line(c.bases[0])
  }

  /** A class is abstract exactly if it or one along its line is an interface, has operations or has several bases. */
  lemma {:induction false} AbstractIff(c: ClassDef)
    ensures IsAbstract(c) <==> exists b :: b in Line(c) && (b.isInterface || b.hasOperations || |b.bases| > 1)
  {
    if c.bases != [] {
      AbstractIff(c.bases[0]);
      assert forall b :: b in Line(c) <==> b == c || b in Line(c.bases[0]);
    } else {
      assert forall b :: b in Line(c) <==> b == c;
    }
  }

  /** The declared members of the classes in the list, those of the last class first. */
  function Declared(l: seq<ClassDef>): seq<string> {
    if l == [] then [] else Declared(l[1..]) + l[0].members
  }

  /** The first `k` classes of the line, and no further, because the next one, if any, stops the recursion. */
  ghost predicate Upto(c: ClassDef, k: nat, stops: ClassDef -> bool) {
    && 1 <= k <= |Line(c)|
    && (forall i :: 1 <= i < k ==> !stops(Line(c)[i]))
    && (k < |Line(c)| ==> stops(Line(c)[k]))
  }

  /** Printed are the members declared along the line up to the first abstract base, base class members first. */
  lemma {:induction false} PrintedAlongLine(c: ClassDef)
    ensures exists k: nat :: Upto(c, k, IsAbstract) && PrintedMembers(c) == Declared(Line(c)[..k])
  {
    if c.bases != [] && !IsAbstract(c.bases[0]) {
      PrintedAlongLine(c.bases[0]);
      var k: nat :| Upto(c.bases[0], k, IsAbstract) && PrintedMembers(c.bases[0]) == Declared(Line(c.bases[0])[..k]);
      LineStep(c, k);
      assert Upto(c, k + 1, IsAbstract);
    } else {
      assert Line(c)[..1] == [c] && Declared([c]) == [] + c.members;
      assert Upto(c, 1, IsAbstract);
    }
  }

  /** An object has the members declared along the line up to the first interface. */
  lemma {:induction false} MembersAlongLine(c: ClassDef)
    ensures exists k: nat :: Upto(c, k, (b: ClassDef) => b.isInterface) && AllMembers(c) == Declared(Line(c)[..k])
  {
    var stops := (b: ClassDef) => b.isInterface;
    if c.bases != [] && !c.bases[0].isInterface {
      MembersAlongLine(c.bases[0]);
      var k: nat :| Upto(c.bases[0], k, stops) && AllMembers(c.bases[0]) == Declared(Line(c.bases[0])[..k]);
      LineStep(c, k);
      assert Upto(c, k + 1, stops);
    } else {
      assert Line(c)[..1] == [c] && Declared([c]) == [] + c.members;
      assert Upto(c, 1, stops);
    }
  }

  lemma DeclaredStep(c: ClassDef, base: seq<ClassDef>, k: nat)
    requires k <= |base|
    ensures Declared(([c] + base)[..k + 1]) == Declared(base[..k]) + c.members
  {
    assert ([c] + base)[..k + 1][1..] == base[..k];
  }

  lemma LineStep(c: ClassDef, k: nat)
    requires c.bases != [] && k <= |Line(c.bases[0])|
    ensures Declared(Line(c)[..k + 1]) == Declared(Line(c.bases[0])[..k]) + c.members
    ensures forall i :: 1 <= i < |Line(c)| ==> Line(c)[i] == Line(c.bases[0])[i - 1]
  {
    assert Line(c) == [c] + Line(c.bases[0]);
    DeclaredStep(c, Line(c.bases[0]), k);
  }
}
