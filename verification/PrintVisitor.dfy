/** The visitor as the source runs it: it updates its history, its counter and its output while it recurses. */
module PrintVisitor {
  import opened EvictorTypes
  import opened Printer
  import opened PrinterOutput

  function Append(a: Parts, b: Parts): Parts {
    match a
    case NoParts => b
    case Parts(head, tail) => Parts(head, Append(tail, b))
  }

  lemma {:induction false} VisitAppend(heap: Heap, a: Parts, b: Parts, v: Visitor)
    requires HeapOK(heap)
    ensures VisitParts(heap, Append(a, b), v) == VisitParts(heap, b, VisitParts(heap, a, v))
    decreases a
  {
    match a
    case NoParts =>
    case Parts(head, tail) => VisitAppend(heap, tail, b, Visit(heap, head, v));
  }

  lemma {:induction false} MemberPartsAppend(a: seq<string>, b: seq<string>, members: map<string, Data>)
    requires forall m | m in a + b :: m in members
    ensures (forall m | m in a :: m in members) && (forall m | m in b :: m in members)
    ensures MemberParts(a + b, members) == Append(MemberParts(a, members), MemberParts(b, members))
  {
    assert forall m | m in a :: m in a + b;
    assert forall m | m in b :: m in a + b;
    if a == [] {
      assert a + b == b;
    } else {
      assert (a + b)[1..] == a[1..] + b;
      MemberPartsAppend(a[1..], b, members);
    }
  }

  class PrintVisitor {
    const heap: Heap
    var objectHistory: map<nat, nat>
    var objectCount: nat
    var out: seq<Token>

    constructor (heap: Heap)
      ensures this.heap == heap && State() == Visitor(map[], 0, [])
    {
      this.heap := heap;
      objectHistory, objectCount, out := map[], 0, [];
    }

    ghost function State(): Visitor
      reads this
    {
      Visitor(objectHistory, objectCount, out)
    }

    method Put(t: Token)
      modifies this`out
      ensures State() == Put1(old(State()), t)
    {
      out := out + [t];
    }

    method VisitData(d: Data)
      requires HeapOK(heap)
      modifies this
      ensures State() == Visit(heap, d, old(State()))
      decreases Unvisited(heap, State()), 1, d
    {
      match d {
        case Scalar(text) => Put(Token.Put(text));
        case Aggregate(parts) =>
          VisitAll(parts);
          Put(End);
        case ObjectRef(target) => VisitObject(target);
      }
    }

    method VisitAll(parts: Parts)
      requires HeapOK(heap)
      modifies this
      ensures State() == VisitParts(heap, parts, old(State()))
      decreases Unvisited(heap, State()), 1, parts
    {
      var p := parts;
      ghost var goal := VisitParts(heap, parts, State());
      while p.Parts?
        invariant p == parts || p < parts
        invariant Unvisited(heap, State()) <= Unvisited(heap, old(State()))
        invariant VisitParts(heap, p, State()) == goal
        decreases p
      {
        VisitData(p.head);
        p := p.tail;
      }
    }

    method VisitObject(target: Option<nat>)
      requires HeapOK(heap)
      modifies this
      ensures State() == Visit(heap, ObjectRef(target), old(State()))
      decreases Unvisited(heap, State()), 0
    {
      if target.None? || target.value !in heap {
        Put(NilRef);
      } else if target.value in objectHistory {
        Put(Again(objectHistory[target.value]));
      } else {
        var id := target.value;
        NumberObject(id);
        PrintedAreMembers(heap[id].classDef);
        PrintObjectMembers(heap[id].classDef, heap[id].members);
        Put(End);
      }
    }

    method NumberObject(id: nat)
      requires id in heap && id !in objectHistory
      modifies this
      ensures State() == Number(old(State()), id) && Unvisited(heap, State()) < Unvisited(heap, old(State()))
    {
      FewerUnvisited(heap, State(), Number(State(), id));
      objectHistory := objectHistory[id := objectCount];
      Put(Begin(id, objectCount));
      objectCount := objectCount + 1;
    }

    method PrintObjectMembers(c: ClassDef, members: map<string, Data>)
      requires HeapOK(heap) && forall m | m in PrintedMembers(c) :: m in members
      modifies this
      ensures State() == VisitParts(heap, MemberParts(PrintedMembers(c), members), old(State()))
      ensures PrintedBetween(heap, PrintedMembers(c), members, old(State()), State())
      decreases Unvisited(heap, State()), 3, c
    {
      ghost var inherited := if c.bases != [] && !IsAbstract(c.bases[0]) then PrintedMembers(c.bases[0]) else [];
      MemberPartsAppend(inherited, c.members, members);
      VisitAppend(heap, MemberParts(inherited, members), MemberParts(c.members, members), State());
      if c.bases != [] && !IsAbstract(c.bases[0]) {
        PrintObjectMembers(c.bases[0], members);
      }
      PrintOwnMembers(c.members, members);
      PartsBetween(heap, PrintedMembers(c), members, old(State()));
    }

    /** The members a class declares itself, in order of declaration. */
    method PrintOwnMembers(names: seq<string>, members: map<string, Data>)
      requires HeapOK(heap) && forall m | m in names :: m in members
      modifies this
      ensures State() == VisitParts(heap, MemberParts(names, members), old(State()))
      ensures PrintedBetween(heap, names, members, old(State()), State())
      decreases Unvisited(heap, State()), 2
    {
      ghost var goal := VisitParts(heap, MemberParts(names, members), State());
      var i := 0;
      assert names[0..] == names;
      while i < |names|
        invariant i <= |names|
        invariant Unvisited(heap, State()) <= Unvisited(heap, old(State()))
        invariant VisitParts(heap, MemberParts(names[i..], members), State()) == goal
      {
        assert names[i..][1..] == names[i + 1..];
        Put(Token.Put(names[i]));
        VisitData(members[names[i]]);
        i := i + 1;
      }
      PartsBetween(heap, names, members, old(State()));
    }
  }
}
