/**
 The streaming loop of run(), one look at one element at a time: each look holds the element's
 mutex, and between two looks at the same element the saving thread waits for the servant's mutex.
 */
module EvictorStreaming {
  import opened EvictorTypes
  import opened EvictorSections
  import opened EvictorMachine
  import opened EvictorClass

  class SavingThread {
    const evictor: Evictor
    const allObjects: seq<EvictorElement>
    const saveNowThreadsSize: nat
    var index: nat
    var waitingFor: Option<nat>                      // the servant whose mutex was taken
    var streamedObjectQueue: seq<Rec<EvictorElement>>
    var deadObjects: seq<EvictorElement>

    constructor (evictor: Evictor, allObjects: seq<EvictorElement>, saveNowThreadsSize: nat)
      ensures this.evictor == evictor
      ensures Locals() == Saver(Streaming, allObjects, 0, None, [], [], saveNowThreadsSize, 0)
    {
      this.evictor, this.allObjects, this.saveNowThreadsSize := evictor, allObjects, saveNowThreadsSize;
      index, waitingFor, streamedObjectQueue, deadObjects := 0, None, [], [];
    }

    ghost function Locals(): Saver<EvictorElement>
      reads this
    {
      Saver(Streaming, allObjects, index, waitingFor, streamedObjectQueue, deadObjects, saveNowThreadsSize, 0)
    }

    /** The evictor and this thread are the ones of machine state `s`. */
    ghost predicate Shows(s: Machine<EvictorElement>)
      reads this, evictor, evictor.known
    {
      s.sh == evictor.Model() && s.saver == Locals()
    }

    function Current(): EvictorElement
      requires index < |allObjects|
      reads this
    {
      allObjects[index]
    }

    /** stream(). */
    method Stream(e: EvictorElement)
      modifies this`streamedObjectQueue
      ensures streamedObjectQueue == old(streamedObjectQueue) + [RecordOf(e, e.Fields())]
    {
      var data := if e.servant.Some? then e.servant.value.state else "";
      streamedObjectQueue := streamedObjectQueue + [Rec(e, e.key, e.status, data)];
    }

    /** The switch over the status, for an element whose servant is not in the way. */
    method StreamCurrent()
      requires index < |allObjects| && allObjects[index] in evictor.known
      modifies this`streamedObjectQueue, this`deadObjects, Current()`status
      ensures var e, x := allObjects[index], old(allObjects[index].Fields());
        && evictor.Model() == With(old(evictor.Model()), e, x.(status := AfterStream(x.status)))
        && streamedObjectQueue == old(streamedObjectQueue) + (if Dirty(x.status) then [RecordOf(e, x)] else [])
        && deadObjects == old(deadObjects) + (if x.status.Destroyed? || x.status.Dead? then [e] else [])
    {
      var e := allObjects[index];
      match e.status {
        case Created =>
          Stream(e);
          e.status := Clean;
        case Modified =>
          Stream(e);
          e.status := Clean;
        case Destroyed =>
          Stream(e);
          e.status := Dead;
          deadObjects := deadObjects + [e];
        case Dead =>
          deadObjects := deadObjects + [e];
        case Clean =>   // a duplicate
      }
      evictor.OneChanged(e);
    }

    /** The element at `from`, which was `x`, is done with: written if it was dirty, and no longer waited for. */
    ghost predicate Advanced(from: nat, streamed: seq<Rec<EvictorElement>>, e: EvictorElement, x: Elem)
      reads this, e
    {
      && index == from + 1 && waitingFor.None?
      && streamedObjectQueue == streamed + (if Dirty(x.status) then [RecordOf(e, x)] else [])
      && !Dirty(e.status)
    }

    method StreamAndAdvance(ghost s: Machine<EvictorElement>)
      requires index < |allObjects| && Shows(s) && allObjects[index] in evictor.known
      modifies this, Current()`status
      ensures Shows(StreamNow(s)) && Advanced(old(index), old(streamedObjectQueue), allObjects[index - 1], old(Current().Fields()))
    {
      StreamCurrent();
      waitingFor := None;
      index := index + 1;
    }

    /** The element is left as it was, unwritten, to be looked at again. */
    ghost predicate Untouched(e: EvictorElement, x: Elem, from: nat, streamed: seq<Rec<EvictorElement>>)
      reads this, e
    {
      index == from && streamedObjectQueue == streamed && e.Fields() == x
    }

    /** The first look; `acquired` says whether the servant's mutex was free. */
    method FirstLook(acquired: bool, ghost s: Machine<EvictorElement>)
      requires index < |allObjects| && Shows(s) && waitingFor.None? && allObjects[index] in evictor.known
      modifies this, Current()`status
      ensures Shows(StreamOneStep(s, acquired))
      ensures var e, x := allObjects[old(index)], old(Current().Fields());
        if (x.status.Created? || x.status.Modified?) && x.servant.Some? && !acquired
        then Untouched(e, x, old(index), old(streamedObjectQueue)) && waitingFor == Some(x.servant.value.oid)
        else Advanced(old(index), old(streamedObjectQueue), e, x)
    {
      var e := allObjects[index];
      if (e.status.Created? || e.status.Modified?) && e.servant.Some? && !acquired {
        waitingFor := Some(e.servant.value.oid);
      } else {
        StreamAndAdvance(s);
      }
    }

    /** The second look, with that mutex: a replaced servant means starting over. */
    method SecondLook(ghost s: Machine<EvictorElement>)
      requires index < |allObjects| && Shows(s) && waitingFor.Some? && allObjects[index] in evictor.known
      modifies this, Current()`status
      ensures Shows(StreamLockedStep(s))
      ensures var e, x := allObjects[old(index)], old(Current().Fields());
        if (x.status.Created? || x.status.Modified?) && x.servant.Some? && old(waitingFor) != Some(x.servant.value.oid)
        then Untouched(e, x, old(index), old(streamedObjectQueue)) && waitingFor.None?
        else Advanced(old(index), old(streamedObjectQueue), e, x)
    {
      var e := allObjects[index];
      if (e.status.Created? || e.status.Modified?) && e.servant.Some? && waitingFor != Some(e.servant.value.oid) {
        waitingFor := None;
      } else {
        StreamAndAdvance(s);
      }
    }
  }
}
