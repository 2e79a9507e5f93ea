/**
 The critical sections of Cache::pinImpl as methods over the mutable map and the mutable latches.
 Each is proved to do what its section in LoadLatch does. `live` holds the allocated latches.
 */
module LoadLatchClass {
  import opened EvictorTypes
  import opened LoadLatch

  class CountDownLatch {
    var count: int
    var useCount: int

    constructor ()
      ensures count == 1 && useCount == 0
    {
      count, useCount := 1, 0;
    }

    ghost function Fields(): Latch
      reads this
    {
      Latch(count, useCount)
    }
  }

  /** What the first section of the loop tells the thread to do. */
  datatype Entered<V> = Hit(obj: V) | MustLoad | MustWait(latch: CountDownLatch)

  class LoadingCache<K(==), V> {
    var slots: map<K, Entry<V, CountDownLatch>>
    ghost var live: set<CountDownLatch>

    constructor ()
      ensures Model() == Cache(map[], map[]) && live == {}
    {
      slots, live := map[], {};
    }

    ghost function Model(): Cache<K, V, CountDownLatch>
      reads this, live
    {
      Cache(slots, map l | l in live :: l.Fields())
    }

    /** Latches that hang on entries are allocated. */
    ghost predicate Linked()
      reads this
    {
      forall k | k in slots && slots[k].latch.Some? :: slots[k].latch.value in live
    }

    method DropLatch(latch: Option<CountDownLatch>)
      requires latch.Some? ==> latch.value in live
      modifies this`live, live
      ensures Model() == Drop(old(Model()), latch) && live <= old(live)
      ensures forall l | l in old(live) && (latch != Some(l) || old(l.useCount) != 1) :: l in live
    {
      if latch.Some? {
        latch.value.useCount := latch.value.useCount - 1;
        if latch.value.useCount == 0 {
          live := live - {latch.value};   // delete
        }
        assert Model().latches == Drop(old(Model()), latch).latches;
      }
    }

    method RegisterOn(key: K) returns (latch: CountDownLatch)
      requires Linked() && key in slots
      modifies this, live
      ensures Linked() && latch in live && (old(slots)[key].latch.None? ==> fresh(latch))
      ensures (Model(), latch) == Register(old(Model()), key, latch)
    {
      if slots[key].latch.None? {
        latch := new CountDownLatch();
        latch.useCount := latch.useCount + 1;
        slots := slots[key := slots[key].(latch := Some(latch))];
        live := live + {latch};
      } else {
        latch := slots[key].latch.value;
        latch.useCount := latch.useCount + 1;
      }
      assert Model().latches == Register(old(Model()), key, latch).0.latches;
    }

    /** The section at the top of the loop. */
    method Enter(key: K, left: Option<CountDownLatch>) returns (r: Entered<V>)
      requires Linked() && (left.Some? ==> left.value in live)
      requires forall k | k in slots && left.Some? :: slots[k].latch != left
      modifies this, live
      ensures Linked()
      ensures var d := Drop(old(Model()), left);
        match r
        case MustLoad => key !in d.slots && Model() == Reserve(d, key)
        case Hit(v) => key in d.slots && d.slots[key].obj == Some(v) && Model() == d
        case MustWait(l) =>
          && key in d.slots && d.slots[key].obj.None?
          && (d.slots[key].latch.Some? ==> d.slots[key].latch.value in d.latches)
          && (Model(), l) == Register(d, key, l)
          && (d.slots[key].latch.None? ==> fresh(l))
    {
      DropLatch(left);
      if key !in slots {
        slots := slots[key := Entry(None, None)];
        return MustLoad;
      }
      if slots[key].obj.Some? {
        return Hit(slots[key].obj.value);
      }
      var latch := RegisterOn(key);
      r := MustWait(latch);
    }

    /** The section after a load that threw; the caller counts the latch down. */
    method Withdraw(key: K) returns (latch: Option<CountDownLatch>)
      requires Linked() && key in slots
      modifies this`slots
      ensures Linked() && Model() == Publish(old(Model()), key, None) && latch == old(slots)[key].latch
    {
      latch := slots[key].latch;
      slots := slots - {key};
    }

    /** The section after the load: `obj` is what it found. */
    method Install(key: K, obj: Option<V>, newObj: Option<V>) returns (latch: Option<CountDownLatch>)
      requires Linked() && key in slots
      modifies this`slots
      ensures Linked() && Model() == Publish(old(Model()), key, Kept(obj, newObj)) && latch == old(slots)[key].latch
    {
      latch := slots[key].latch;
      slots := slots[key := slots[key].(latch := None)];
      if obj.Some? {
        slots := slots[key := slots[key].(obj := obj)];
      } else if newObj.None? {
        slots := slots - {key};
      } else {
        slots := slots[key := slots[key].(obj := newObj)];
      }
    }

    method CountDown(latch: CountDownLatch)
      requires latch in live && latch.count == 1
      modifies latch`count
      ensures Model() == old(Model()).(latches := old(Model()).latches[latch := Latch(0, latch.useCount)])
    {
      latch.count := latch.count - 1;
    }

    method Unpin(key: K)
      modifies this`slots
      ensures Model() == old(Model()).(slots := old(slots) - {key})
    {
      slots := slots - {key};
    }
  }
}
