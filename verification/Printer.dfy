/**
 The FreezeScript data printer. Objects refer to each other and may form cycles; the printer numbers
 each object it meets and prints its members the first time only.
 */
module Printer {
  import opened EvictorTypes

  /** A Slice class: what the printer and the data factory look at. */
  datatype ClassDef = ClassDef(isInterface: bool, hasOperations: bool, bases: seq<ClassDef>, members: seq<string>)

  predicate IsAbstract(c: ClassDef) {
    || c.isInterface
    || |c.bases| > 1
    || (c.bases != [] && IsAbstract(c.bases[0]))
    || c.hasOperations
  }

  /** allDataMembers: the members an object of the class has. */
  function AllMembers(c: ClassDef): seq<string> {
    (if c.bases != [] && !c.bases[0].isInterface then AllMembers(c.bases[0]) else []) + c.members
  }

  /** The members printObjectMembers prints. */
  function PrintedMembers(c: ClassDef): seq<string> {
    (if c.bases != [] && !IsAbstract(c.bases[0]) then PrintedMembers(c.bases[0]) else []) + c.members
  }

  /** Up the chain of concrete base classes, the first abstract class, if it is not an interface, has no data members. */
  predicate NothingHidden(c: ClassDef) {
    c.bases == [] || c.bases[0].isInterface
    || (if IsAbstract(c.bases[0]) then AllMembers(c.bases[0]) == [] else NothingHidden(c.bases[0]))
  }

  lemma {:induction false} PrintedAreMembers(c: ClassDef)
    ensures |PrintedMembers(c)| <= |AllMembers(c)|
    ensures forall m | m in PrintedMembers(c) :: m in AllMembers(c)
  {
    if c.bases != [] && !IsAbstract(c.bases[0]) {
      PrintedAreMembers(c.bases[0]);
    }
  }

  /** The printer prints all members of an object exactly if its class inherits none from an abstract class. */
  lemma {:induction false} PrintsAllMembersIff(c: ClassDef)
    ensures PrintedMembers(c) == AllMembers(c) <==> NothingHidden(c)
  {
    if c.bases != [] && !c.bases[0].isInterface {
      var b := c.bases[0];
      PrintedAreMembers(c);
      if IsAbstract(b) {
        assert |AllMembers(c)| == |AllMembers(b)| + |c.members|;
        assert |PrintedMembers(c)| == |c.members|;
      } else {
        PrintsAllMembersIff(b);
        PrintedAreMembers(b);
        if PrintedMembers(c) == AllMembers(c) {
          assert |PrintedMembers(b)| == |AllMembers(b)|;
          assert PrintedMembers(c)[..|PrintedMembers(b)|] == PrintedMembers(b);
          assert AllMembers(c)[..|AllMembers(b)|] == AllMembers(b);
        }
      }
    }
  }

  /** A class whose base has an operation: the inherited member is not printed. */
  lemma AbstractBaseHidesMember()
    ensures var base := ClassDef(false, true, [], ["inherited"]);
      var c := ClassDef(false, false, [base], ["own"]);
      AllMembers(c) == ["inherited", "own"] && PrintedMembers(c) == ["own"]
  {
    var base := ClassDef(false, true, [], ["inherited"]);
    assert AllMembers(base) == [] + ["inherited"];
  }

  /****** Data ******/

  /** A struct, sequence or dictionary is an aggregate: the texts (scalars) and values the visitor puts out, in order. */
  datatype Data = Scalar(text: string) | Aggregate(parts: Parts) | ObjectRef(target: Option<nat>)

  datatype Parts = NoParts | Parts(head: Data, tail: Parts)

  /** The objects, by address. */
  datatype Object = Object(classDef: ClassDef, members: map<string, Data>)

  type Heap = map<nat, Object>

  /** Every object has its class's members. */
  ghost predicate HeapOK(heap: Heap) {
    forall id :: id in heap ==> forall m | m in AllMembers(heap[id].classDef) :: m in heap[id].members
  }

  /** The members of an object as parts: name and value in turn. */
  function MemberParts(names: seq<string>, members: map<string, Data>): Parts
    requires forall m | m in names :: m in members
  {
    if names == [] then NoParts
    else Parts(Scalar(names[0]), Parts(members[names[0]], MemberParts(names[1..], members)))
  }

  function ObjectParts(o: Object): Parts
    requires forall m | m in AllMembers(o.classDef) :: m in o.members
  {
    PrintedAreMembers(o.classDef);
    MemberParts(PrintedMembers(o.classDef), o.members)
  }

  /****** Printing ******/

  datatype Token = Put(text: string) | NilRef | Begin(id: nat, number: nat) | Again(number: nat) | End

  /** The visitor: which objects it has numbered, how many, and its output. */
  datatype Visitor = Visitor(history: map<nat, nat>, count: nat, out: seq<Token>)

  function Put1(v: Visitor, t: Token): Visitor {
    v.(out := v.out + [t])
  }

  function Number(v: Visitor, id: nat): Visitor {
    Visitor(v.history[id := v.count], v.count + 1, v.out + [Begin(id, v.count)])
  }

  ghost function Unvisited(heap: Heap, v: Visitor): nat {
    |heap.Keys - v.history.Keys|
  }

  lemma FewerUnvisited(heap: Heap, v: Visitor, w: Visitor)
    requires v.history.Keys <= w.history.Keys
    ensures Unvisited(heap, w) <= Unvisited(heap, v)
    ensures forall id :: id in heap && id in w.history && id !in v.history ==> Unvisited(heap, w) < Unvisited(heap, v)
  {
    var a, b := heap.Keys - v.history.Keys, heap.Keys - w.history.Keys;
    assert a == b + (a - b);
    forall id | id in heap && id in w.history && id !in v.history ensures |b| < |a| {
      assert id in a - b;
    }
  }

  ghost function Visit(heap: Heap, d: Data, v: Visitor): (w: Visitor)
    requires HeapOK(heap)
    ensures v.history.Keys <= w.history.Keys && Unvisited(heap, w) <= Unvisited(heap, v)
    decreases Unvisited(heap, v), d
  {
    match d
    case Scalar(text) => Put1(v, Put(text))
    case Aggregate(parts) => Put1(VisitParts(heap, parts, v), End)
    case ObjectRef(target) =>
      if target.None? || target.value !in heap then Put1(v, NilRef)
      else if target.value in v.history then Put1(v, Again(v.history[target.value]))
      else
        var n := Number(v, target.value);
        FewerUnvisited(heap, v, n);
        Put1(VisitParts(heap, ObjectParts(heap[target.value]), n), End)
  }

  ghost function VisitParts(heap: Heap, parts: Parts, v: Visitor): (w: Visitor)
    requires HeapOK(heap)
    ensures v.history.Keys <= w.history.Keys && Unvisited(heap, w) <= Unvisited(heap, v)
    decreases Unvisited(heap, v), parts
  {
    match parts
    case NoParts => v
    case Parts(head, tail) => VisitParts(heap, tail, Visit(heap, head, v))
  }

  /** printData on the whole: a new visitor. */
  ghost function PrintData(heap: Heap, root: Data): Visitor
    requires HeapOK(heap)
  {
    Visit(heap, root, Visitor(map[], 0, []))
  }

  /****** Numbering: each object once ******/

  /** The objects whose members have been started, in order. */
  ghost function Begun(out: seq<Token>): seq<nat> {
    if out == [] then []
    else Begun(out[..|out| - 1]) + if out[|out| - 1].Begin? then [out[|out| - 1].id] else []
  }

  lemma BegunPut(out: seq<Token>, t: Token)
    ensures Begun(out + [t]) == Begun(out) + if t.Begin? then [t.id] else []
  {
    assert (out + [t])[..|out|] == out;
  }

  /** The `i`-th object begun has number `i`; no object is begun twice, and all that are numbered have been. */
  ghost predicate Numbered(v: Visitor) {
    var begun := Begun(v.out);
    && |begun| == v.count && NoDup(begun)
    && (forall id :: id in v.history <==> id in begun)
    && (forall i :: 0 <= i < |begun| ==> begun[i] in v.history && v.history[begun[i]] == i)
  }

  lemma NumberNumbered(v: Visitor, id: nat)
    requires Numbered(v) && id !in v.history
    ensures Numbered(Number(v, id))
  {
    BegunPut(v.out, Begin(id, v.count));
  }

  lemma PutNumbered(v: Visitor, t: Token)
    requires Numbered(v) && !t.Begin?
    ensures Numbered(Put1(v, t))
  {
    BegunPut(v.out, t);
  }

  lemma {:induction false} VisitNumbered(heap: Heap, d: Data, v: Visitor)
    requires HeapOK(heap) && Numbered(v)
    ensures Numbered(Visit(heap, d, v))
    decreases Unvisited(heap, v), d
  {
    match d
    case Scalar(text) => PutNumbered(v, Put(text));
    case Aggregate(parts) =>
      PartsNumbered(heap, parts, v);
      PutNumbered(VisitParts(heap, parts, v), End);
    case ObjectRef(target) =>
      if target.None? || target.value !in heap {
        PutNumbered(v, NilRef);
      } else if target.value in v.history {
        PutNumbered(v, Again(v.history[target.value]));
      } else {
        var n := Number(v, target.value);
        FewerUnvisited(heap, v, n);
        NumberNumbered(v, target.value);
        PartsNumbered(heap, ObjectParts(heap[target.value]), n);
        PutNumbered(VisitParts(heap, ObjectParts(heap[target.value]), n), End);
      }
  }

  lemma {:induction false} PartsNumbered(heap: Heap, parts: Parts, v: Visitor)
    requires HeapOK(heap) && Numbered(v)
    ensures Numbered(VisitParts(heap, parts, v))
    decreases Unvisited(heap, v), parts
  {
    match parts
    case NoParts =>
    case Parts(head, tail) =>
      VisitNumbered(heap, head, v);
      PartsNumbered(heap, tail, Visit(heap, head, v));
  }

  /****** Reachability ******/

  /** The objects that `d` refers to without going through another object. */
  ghost function Refs(heap: Heap, d: Data): set<nat> {
    match d
    case Scalar(_) => {}
    case Aggregate(parts) => RefsIn(heap, parts)
    case ObjectRef(target) => if target.Some? && target.value in heap then {target.value} else {}
  }

  ghost function RefsIn(heap: Heap, parts: Parts): set<nat> {
    match parts
    case NoParts => {}
    case Parts(head, tail) => Refs(heap, head) + RefsIn(heap, tail)
  }

  /** The objects that the printed members of object `id` refer to. */
  ghost function Next(heap: Heap, id: nat): set<nat>
    requires HeapOK(heap) && id in heap
  {
    PrintedAreMembers(heap[id].classDef);
    RefsOf(heap, PrintedMembers(heap[id].classDef), heap[id].members)
  }

  /** What the values of the named members refer to. */
  ghost function RefsOf(heap: Heap, names: seq<string>, members: map<string, Data>): set<nat>
    requires forall m | m in names :: m in members
  {
    set m, x | m in names && x in Refs(heap, members[m]) :: x
  }

  lemma {:induction false} MemberRefs(heap: Heap, names: seq<string>, members: map<string, Data>)
    requires forall m | m in names :: m in members
    ensures RefsIn(heap, MemberParts(names, members)) == RefsOf(heap, names, members)
  {
    if names != [] {
      MemberRefs(heap, names[1..], members);
      assert forall m :: m in names <==> m == names[0] || m in names[1..];
      assert RefsOf(heap, names, members) == Refs(heap, members[names[0]]) + RefsOf(heap, names[1..], members);
      assert RefsIn(heap, MemberParts(names, members)) == Refs(heap, members[names[0]]) + RefsIn(heap, MemberParts(names[1..], members));
    }
  }

  lemma ObjectRefs(heap: Heap, id: nat)
    requires HeapOK(heap) && id in heap
    ensures RefsIn(heap, ObjectParts(heap[id])) == Next(heap, id)
  {
    PrintedAreMembers(heap[id].classDef);
    MemberRefs(heap, PrintedMembers(heap[id].classDef), heap[id].members);
  }

  /** `id` is reached from the objects `from` in `n` steps. */
  ghost predicate Reached(heap: Heap, from: set<nat>, id: nat, n: nat)
    requires HeapOK(heap)
    decreases n
  {
    if n == 0 then id in from && id in heap
    else exists mid :: mid in heap && Reached(heap, from, mid, n - 1) && id in Next(heap, mid)
  }

  ghost predicate Reachable(heap: Heap, from: set<nat>, id: nat)
    requires HeapOK(heap)
  {
    exists n :: Reached(heap, from, id, n)
  }

  /** What the visit added is closed: whatever an added object refers to has been visited too. */
  ghost predicate ClosedSince(heap: Heap, v: Visitor, w: Visitor)
    requires HeapOK(heap)
  {
    forall id :: id in w.history && id !in v.history ==> id in heap && Next(heap, id) <= w.history.Keys
  }

  lemma {:induction false} VisitCloses(heap: Heap, d: Data, v: Visitor)
    requires HeapOK(heap)
    ensures Refs(heap, d) <= Visit(heap, d, v).history.Keys
    ensures ClosedSince(heap, v, Visit(heap, d, v))
    decreases Unvisited(heap, v), 1, d
  {
    match d
    case Scalar(_) =>
    case Aggregate(parts) => PartsClose(heap, parts, v);
    case ObjectRef(target) =>
      if target.Some? && target.value in heap && target.value !in v.history {
        FewerUnvisited(heap, v, Number(v, target.value));
        NewObjectCloses(heap, target.value, v);
      }
  }

  lemma {:induction false} NewObjectCloses(heap: Heap, id: nat, v: Visitor)
    requires HeapOK(heap) && id in heap && id !in v.history && Unvisited(heap, Number(v, id)) < Unvisited(heap, v)
    ensures id in Visit(heap, ObjectRef(Some(id)), v).history
    ensures ClosedSince(heap, v, Visit(heap, ObjectRef(Some(id)), v))
    decreases Unvisited(heap, v), 0
  {
    var n := Number(v, id);
    PartsClose(heap, ObjectParts(heap[id]), n);
    ObjectCloses(heap, id, v, VisitParts(heap, ObjectParts(heap[id]), n));
  }

  lemma ObjectCloses(heap: Heap, id: nat, v: Visitor, w: Visitor)
    requires HeapOK(heap) && id in heap && id !in v.history && Number(v, id).history.Keys <= w.history.Keys
    requires RefsIn(heap, ObjectParts(heap[id])) <= w.history.Keys && ClosedSince(heap, Number(v, id), w)
    ensures id in w.history && ClosedSince(heap, v, w)
  {
    ObjectRefs(heap, id);
  }

  lemma {:induction false} PartsClose(heap: Heap, parts: Parts, v: Visitor)
    requires HeapOK(heap)
    ensures RefsIn(heap, parts) <= VisitParts(heap, parts, v).history.Keys
    ensures ClosedSince(heap, v, VisitParts(heap, parts, v))
    decreases Unvisited(heap, v), 1, parts
  {
    match parts
    case NoParts =>
    case Parts(head, tail) =>
      VisitCloses(heap, head, v);
      PartsClose(heap, tail, Visit(heap, head, v));
  }

  /** A set of objects that contains `from` and what its members refer to contains all that is reached. */
  lemma {:induction false} ReachedInside(heap: Heap, from: set<nat>, all: set<nat>, id: nat, n: nat)
    requires HeapOK(heap) && from <= all && (forall x :: x in all ==> x in heap && Next(heap, x) <= all)
    requires Reached(heap, from, id, n)
    ensures id in all
    decreases n
  {
    if n > 0 {
      var mid := ReachedVia(heap, from, id, n);
      ReachedInside(heap, from, all, mid, n - 1);
    }
  }

  /** Everything visited was visited before or is reached from where the visit began. */
  ghost predicate Found(heap: Heap, v: Visitor, w: Visitor, from: set<nat>)
    requires HeapOK(heap)
  {
    forall id :: id in w.history && id !in v.history ==> Reachable(heap, from, id)
  }

  lemma {:induction false} ReachedMore(heap: Heap, from: set<nat>, more: set<nat>, id: nat, n: nat)
    requires HeapOK(heap) && Reached(heap, from, id, n) && from <= more
    ensures Reached(heap, more, id, n)
    decreases n
  {
    if n > 0 {
      var mid := ReachedVia(heap, from, id, n);
      ReachedMore(heap, from, more, mid, n - 1);
      ReachedStep(heap, more, mid, id, n - 1);
    }
  }

  /** The last object on the way. */
  lemma ReachedVia(heap: Heap, from: set<nat>, id: nat, n: nat) returns (mid: nat)
    requires HeapOK(heap) && n > 0 && Reached(heap, from, id, n)
    ensures mid in heap && Reached(heap, from, mid, n - 1) && id in Next(heap, mid)
  {
    mid :| mid in heap && Reached(heap, from, mid, n - 1) && id in Next(heap, mid);
  }

  lemma ReachedStep(heap: Heap, from: set<nat>, mid: nat, id: nat, n: nat)
    requires HeapOK(heap) && mid in heap && Reached(heap, from, mid, n) && id in Next(heap, mid)
    ensures Reached(heap, from, id, n + 1)
  {
  }

  /** What is reached from the members of `start` is reached from `start`, in one step more. */
  lemma {:induction false} ReachedThrough(heap: Heap, start: nat, id: nat, n: nat)
    requires HeapOK(heap) && start in heap && Reached(heap, Next(heap, start), id, n)
    ensures Reached(heap, {start}, id, n + 1)
    decreases n
  {
    if n == 0 {
      assert Reached(heap, {start}, start, 0);
      ReachedStep(heap, {start}, start, id, 0);
    } else {
      var mid := ReachedVia(heap, Next(heap, start), id, n);
      ReachedThrough(heap, start, mid, n - 1);
      ReachedStep(heap, {start}, mid, id, n);
    }
  }

  lemma FoundMore(heap: Heap, v: Visitor, w: Visitor, from: set<nat>, more: set<nat>)
    requires HeapOK(heap) && Found(heap, v, w, from) && from <= more
    ensures Found(heap, v, w, more)
  {
    forall id | id in w.history && id !in v.history ensures Reachable(heap, more, id) {
      var n :| Reached(heap, from, id, n);
      ReachedMore(heap, from, more, id, n);
    }
  }

  lemma {:induction false} VisitFinds(heap: Heap, d: Data, v: Visitor)
    requires HeapOK(heap)
    ensures Found(heap, v, Visit(heap, d, v), Refs(heap, d))
    decreases Unvisited(heap, v), d
  {
    match d
    case Scalar(_) =>
    case Aggregate(parts) => PartsFind(heap, parts, v);
    case ObjectRef(target) =>
      if target.Some? && target.value in heap && target.value !in v.history {
        var n := Number(v, target.value);
        FewerUnvisited(heap, v, n);
        ObjectRefs(heap, target.value);
        PartsFind(heap, ObjectParts(heap[target.value]), n);
        ObjectFinds(heap, target.value, v, VisitParts(heap, ObjectParts(heap[target.value]), n));
      }
  }

  lemma ObjectFinds(heap: Heap, start: nat, v: Visitor, w: Visitor)
    requires HeapOK(heap) && start in heap && Found(heap, Number(v, start), w, Next(heap, start))
    ensures Found(heap, v, w, {start})
  {
    forall id | id in w.history && id !in v.history ensures Reachable(heap, {start}, id) {
      if id == start {
        assert Reached(heap, {start}, id, 0);
      } else {
        var k: nat :| Reached(heap, Next(heap, start), id, k);
        ReachedThrough(heap, start, id, k);
      }
    }
  }

  lemma {:induction false} PartsFind(heap: Heap, parts: Parts, v: Visitor)
    requires HeapOK(heap)
    ensures Found(heap, v, VisitParts(heap, parts, v), RefsIn(heap, parts))
    decreases Unvisited(heap, v), parts
  {
    match parts
    case NoParts =>
    case Parts(head, tail) =>
      var m := Visit(heap, head, v);
      VisitFinds(heap, head, v);
      PartsFind(heap, tail, m);
      FoundMore(heap, v, m, Refs(heap, head), RefsIn(heap, parts));
      FoundMore(heap, m, VisitParts(heap, tail, m), RefsIn(heap, tail), RefsIn(heap, parts));
  }

  /**
   On every object graph, with cycles or without, printing ends having printed the members of exactly the objects
   reached through printed members, each once, with the numbers 0, 1, 2 ... in the order they are begun.
   */
  lemma PrintsReachableOnce(heap: Heap, root: Data)
    requires HeapOK(heap)
    ensures var v := PrintData(heap, root);
      && Numbered(v)
      && (forall id :: id in Begun(v.out) <==> Reachable(heap, Refs(heap, root), id))
  {
    var empty := Visitor(map[], 0, []);
    var v := PrintData(heap, root);
    VisitNumbered(heap, root, empty);
    HistoryIsReachable(heap, root);
  }

  lemma HistoryIsReachable(heap: Heap, root: Data)
    requires HeapOK(heap)
    ensures forall id :: id in PrintData(heap, root).history <==> Reachable(heap, Refs(heap, root), id)
  {
    var empty := Visitor(map[], 0, []);
    VisitFinds(heap, root, empty);
    forall id | Reachable(heap, Refs(heap, root), id) ensures id in PrintData(heap, root).history {
      var n: nat :| Reached(heap, Refs(heap, root), id, n);
      ReachedPrinted(heap, root, id, n);
    }
  }

  lemma ReachedPrinted(heap: Heap, root: Data, id: nat, n: nat)
    requires HeapOK(heap) && Reached(heap, Refs(heap, root), id, n)
    ensures id in PrintData(heap, root).history
  {
    VisitCloses(heap, root, Visitor(map[], 0, []));
    ReachedInside(heap, Refs(heap, root), PrintData(heap, root).history.Keys, id, n);
  }
}
