/**
 The iterators of a Freeze map and the transactions they own. A transaction is shared by an iterator
 and its clones and is counted by reference; it ends when its last iterator lets go of it. `I` and `T` are
 the types of iterator and transaction handles.
 */
module MapIterators {
  import opened EvictorTypes

  datatype Ending = Active | Committed | CommitFailed | Aborted

  /** IteratorHelperI::Tx; `ends` is how often its destructor has run. */
  datatype Tx = Tx(refs: int, dead: bool, ending: Ending, ends: nat)

  datatype Closing = Closed | CloseDeadlock | CloseFailed

  /** IteratorHelperI: whether its cursor is open, and its transaction. */
  datatype Iter<T> = Iter(open: bool, tx: Option<T>)

  datatype State<I(==), T(==)> = State(list: seq<I>, its: map<I, Iter<T>>, txs: map<T, Tx>)

  ghost predicate Owns<I, T>(s: State<I, T>, i: I, t: T) {
    i in s.its && s.its[i].tx == Some(t)
  }

  /** The iterators of `l` that belong to transaction `t`, in their order. */
  ghost function Of<I, T>(s: State<I, T>, l: seq<I>, t: T): seq<I> {
    if l == [] then [] else (if Owns(s, l[0], t) then [l[0]] else []) + Of(s, l[1..], t)
  }

  /** A transaction counts its open iterators; it ends once, when none is left, and by abort exactly if it is dead. */
  ghost predicate TxOK<I, T>(s: State<I, T>, t: T)
    requires t in s.txs
  {
    var x := s.txs[t];
    && x.refs == |Of(s, s.list, t)|
    && x.ends == (if x.refs == 0 then 1 else 0)
    && (x.refs > 0 <==> x.ending.Active?)
    && (x.ending.Aborted? ==> x.dead) && (x.ending.Committed? || x.ending.CommitFailed? ==> !x.dead)
  }

  ghost predicate OK<I, T>(s: State<I, T>) {
    && NoDup(s.list)
    && (forall i :: i in s.list ==> i in s.its)
    && (forall i :: i in s.its ==> s.its[i].open == (i in s.list) && (!s.its[i].open ==> s.its[i].tx.None?))
    && (forall i :: i in s.its && s.its[i].tx.Some? ==> s.its[i].tx.value in s.txs)
    && (forall t {:trigger TxOK(s, t)} :: t in s.txs ==> TxOK(s, t))
  }

  /****** Sections ******/

  /** A handle to a transaction goes away; the last one runs the destructor, whose commit may fail. */
  function Released(x: Tx, fails: bool): Tx {
    var refs := x.refs - 1;
    if refs != 0 then x.(refs := refs)
    else Tx(refs, x.dead, if x.dead then Aborted else if fails then CommitFailed else Committed, x.ends + 1)
  }

  function DroppedTx<I(==), T(==)>(s: State<I, T>, i: I, fails: bool): State<I, T>
    requires i in s.its && (s.its[i].tx.Some? ==> s.its[i].tx.value in s.txs)
  {
    s.(its := s.its[i := s.its[i].(tx := None)],
       txs := match s.its[i].tx
              case None => s.txs
              case Some(t) => s.txs[t := Released(s.txs[t], fails)])
  }

  /** cleanup. */
  function Dropped<I(==), T(==)>(s: State<I, T>, i: I, fails: bool): State<I, T>
    requires i in s.its && (s.its[i].tx.Some? ==> s.its[i].tx.value in s.txs)
  {
    DroppedTx(s.(list := Without(s.list, i), its := s.its[i := s.its[i].(open := false)]), i, fails)
  }

  /** A new iterator, with no transaction, with one of its own, or with that of the iterator it is cloned from. */
  function Added<I(==), T(==)>(s: State<I, T>, i: I, tx: Option<T>): State<I, T> {
    State(
      s.list + [i],
      s.its[i := Iter(true, tx)],
      match tx
      case None => s.txs
      case Some(t) => s.txs[t := if t in s.txs then s.txs[t].(refs := s.txs[t].refs + 1) else Tx(1, false, Active, 0)])
  }

  function Deadened<I(==), T(==)>(s: State<I, T>, t: T): State<I, T>
    requires t in s.txs
  {
    s.(txs := s.txs[t := s.txs[t].(dead := true)])
  }

  /****** Lists of iterators ******/

  lemma {:induction false} OfSplit<I, T>(s: State<I, T>, l: seq<I>, m: seq<I>, t: T)
    ensures Of(s, l + m, t) == Of(s, l, t) + Of(s, m, t)
  {
    if l == [] {
      assert l + m == m;
    } else {
      assert (l + m)[1..] == l[1..] + m;
      OfSplit(s, l[1..], m, t);
    }
  }

  lemma {:induction false} OfMembers<I, T>(s: State<I, T>, l: seq<I>, t: T)
    ensures forall i :: i in Of(s, l, t) <==> i in l && Owns(s, i, t)
  {
    if l != [] {
      OfMembers(s, l[1..], t);
      assert l == [l[0]] + l[1..];
    }
  }

  lemma {:induction false} OfAll<I, T>(s: State<I, T>, l: seq<I>, t: T)
    requires forall i | i in l :: Owns(s, i, t)
    ensures Of(s, l, t) == l
  {
    if l != [] {
      OfAll(s, l[1..], t);
    }
  }

  /** Of only looks at who owns the entries. */
  lemma {:induction false} OfFrame<I, T>(s: State<I, T>, s': State<I, T>, l: seq<I>, t: T)
    requires forall i | i in l :: Owns(s, i, t) == Owns(s', i, t)
    ensures Of(s, l, t) == Of(s', l, t)
  {
    if l != [] {
      OfFrame(s, s', l[1..], t);
    }
  }

  lemma {:induction false} OfWithout<I, T>(s: State<I, T>, l: seq<I>, i: I, t: T)
    requires NoDup(l)
    ensures |Of(s, Without(l, i), t)| == |Of(s, l, t)| - (if i in l && Owns(s, i, t) then 1 else 0)
    ensures !Owns(s, i, t) ==> Of(s, Without(l, i), t) == Of(s, l, t)
  {
    if l != [] {
      OfWithout(s, l[1..], i, t);
      if l[0] == i {
        WithoutAbsent(l[1..], i);
      } else {
        assert Without(l, i)[1..] == Without(l[1..], i);
      }
    }
  }

  /****** Preservation ******/

  lemma DroppedOf<I, T>(s: State<I, T>, i: I, fails: bool, t: T)
    requires OK(s) && i in s.list
    ensures i in s.its && (s.its[i].tx.Some? ==> s.its[i].tx.value in s.txs)
    ensures var s' := Dropped(s, i, fails);
      |Of(s', s'.list, t)| == |Of(s, s.list, t)| - (if Owns(s, i, t) then 1 else 0)
    ensures !Owns(s, i, t) ==> Of(Dropped(s, i, fails), Dropped(s, i, fails).list, t) == Of(s, s.list, t)
  {
    OfWithout(s, s.list, i, t);
    var s' := Dropped(s, i, fails);
    OfFrame(s, s', s'.list, t);
  }

  /** Closing an iterator keeps the accounts. */
  lemma DroppedOK<I, T>(s: State<I, T>, i: I, fails: bool)
    requires OK(s) && i in s.list
    ensures i in s.its && (s.its[i].tx.Some? ==> s.its[i].tx.value in s.txs)
    ensures OK(Dropped(s, i, fails))
  {
    var s' := Dropped(s, i, fails);
    WithoutNoDup(s.list, i);
    forall t | t in s'.txs ensures TxOK(s', t) {
      assert TxOK(s, t);
      DroppedOf(s, i, fails, t);
    }
  }

  lemma AddedOK<I, T>(s: State<I, T>, i: I, tx: Option<T>)
    requires OK(s) && i !in s.its
    requires tx.Some? && tx.value in s.txs ==> s.txs[tx.value].refs > 0
    ensures OK(Added(s, i, tx))
  {
    var s' := Added(s, i, tx);
    forall t | t in s'.txs ensures TxOK(s', t) {
      AddedTx(s, i, tx, t);
    }
  }

  lemma AddedTx<I, T>(s: State<I, T>, i: I, tx: Option<T>, t: T)
    requires OK(s) && i !in s.its && t in Added(s, i, tx).txs
    requires tx.Some? && tx.value in s.txs ==> s.txs[tx.value].refs > 0
    ensures TxOK(Added(s, i, tx), t)
  {
    var s' := Added(s, i, tx);
    assert t in s.txs ==> TxOK(s, t);
    OfSplit(s', s.list, [i], t);
    OfFrame(s, s', s.list, t);
    assert Of(s', [i], t) == if tx == Some(t) then [i] else [];
    if t !in s.txs {
      NothingOf(s, s.list, t);
    }
  }

  lemma {:induction false} NothingOf<I, T>(s: State<I, T>, l: seq<I>, t: T)
    requires forall i | i in l :: !Owns(s, i, t)
    ensures Of(s, l, t) == []
  {
    if l != [] {
      NothingOf(s, l[1..], t);
    }
  }

  lemma DeadenedOK<I, T>(s: State<I, T>, t: T)
    requires OK(s) && t in s.txs && s.txs[t].refs > 0
    ensures OK(Deadened(s, t))
  {
    var s' := Deadened(s, t);
    forall u | u in s'.txs ensures TxOK(s', u) {
      assert TxOK(s, u);
      OfFrame(s, s', s.list, u);
    }
  }

  /****** The map ******/

  class TxObject {
    var refs: int
    var dead: bool
    var ending: Ending
    ghost var ends: nat

    constructor ()
      ensures Fields() == Tx(1, false, Active, 0)
    {
      refs, dead, ending, ends := 1, false, Active, 0;
    }

    ghost function Fields(): Tx
      reads this
    {
      Tx(refs, dead, ending, ends)
    }

    /** A handle goes away. True if the destructor threw: the commit failed. */
    method DecRef() returns (threw: bool)
      modifies this
      ensures Fields() == Released(old(Fields()), threw)
      ensures threw ==> refs == 0 && !dead && ending.CommitFailed?
    {
      refs, threw := refs - 1, false;
      if refs == 0 {
        ends := ends + 1;
        if dead {
          ending := Aborted;
        } else {
          threw := *;
          ending := if threw then CommitFailed else Committed;
        }
      }
    }
  }

  class IteratorHelper {
    const indexed: bool       // obtained through an index
    var dbc: bool             // the cursor is open
    var tx: Option<TxObject>

    constructor (indexed: bool, tx: Option<TxObject>)
      ensures Fields() == Iter(true, tx) && this.indexed == indexed
    {
      this.indexed, dbc, this.tx := indexed, true, tx;
    }

    ghost function Fields(): Iter<TxObject>
      reads this
    {
      Iter(dbc, tx)
    }
  }

  class MapHelper {
    var iteratorList: seq<IteratorHelper>
    ghost var its: set<IteratorHelper>     // all iterators there have been
    ghost var txs: set<TxObject>           // and all their transactions
    ghost var thrown: nat                  // how many closings have thrown

    constructor ()
      ensures Valid() && iteratorList == []
    {
      iteratorList, its, txs, thrown := [], {}, {}, 0;
    }

    ghost function Model(): State<IteratorHelper, TxObject>
      reads this`iteratorList, this`its, this`txs, its, txs
    {
      State(iteratorList, map i | i in its :: i.Fields(), map t | t in txs :: t.Fields())
    }

    ghost predicate Valid()
      reads this`iteratorList, this`its, this`txs, its, txs
    {
      OK(Model())
    }

    lemma Listed(it: IteratorHelper)
      requires Valid() && it in iteratorList
      ensures it in its && it.dbc && Model().its[it] == it.Fields() && (it.tx.Some? ==> it.tx.value in txs)
    {
      assert it in Model().list;
      assert it in Model().its;
    }

    method Unlist(it: IteratorHelper)
      requires NoDup(iteratorList) && it in iteratorList
      modifies this`iteratorList
      ensures iteratorList == Without(old(iteratorList), it)
    {
      var i :| 0 <= i < |iteratorList| && iteratorList[i] == it;
      WithoutAt(iteratorList, i);
      iteratorList := iteratorList[..i] + iteratorList[i + 1..];
    }

    /** Drop the iterator's handle to its transaction. */
    method DropTx(it: IteratorHelper) returns (threw: bool)
      requires it in its && (it.tx.Some? ==> it.tx.value in txs)
      modifies it`tx, txs
      ensures Model() == DroppedTx(old(Model()), it, threw)
      ensures threw ==> old(it.tx).Some? && var t := old(it.tx).value; t.refs == 0 && !t.dead && t.ending.CommitFailed?
    {
      ghost var s := Model();
      var tx := it.tx;
      it.tx := None;
      threw := false;
      if tx.Some? {
        threw := tx.value.DecRef();
      }
      assert Model().its == s.its[it := it.Fields()];
      assert Model().txs == DroppedTx(s, it, threw).txs;
    }

    /** cleanup(). */
    method Cleanup(it: IteratorHelper) returns (threw: bool)
      requires NoDup(iteratorList) && it in iteratorList && it in its && (it.tx.Some? ==> it.tx.value in txs)
      modifies this`iteratorList, it, txs
      ensures its == old(its) && txs == old(txs)
      ensures Model() == Dropped(old(Model()), it, threw)
      ensures threw ==> old(it.tx).Some? && var t := old(it.tx).value; t.refs == 0 && !t.dead && t.ending.CommitFailed?
    {
      CloseCursor(it);
      threw := DropTx(it);
    }

    method CleanupListed(it: IteratorHelper) returns (threw: bool)
      requires Valid() && it in its && it in iteratorList
      modifies this`iteratorList, it, txs
      ensures Valid() && its == old(its) && txs == old(txs)
      ensures Model() == Dropped(old(Model()), it, threw)
      ensures threw ==> old(it.tx).Some? && var t := old(it.tx).value; t.refs == 0 && !t.dead && t.ending.CommitFailed?
    {
      ghost var s := Model();
      Listed(it);
      threw := Cleanup(it);
      DroppedOK(s, it, threw);
    }

    method CloseCursor(it: IteratorHelper)
      requires NoDup(iteratorList) && it in iteratorList && it in its
      modifies this`iteratorList, it`dbc
      ensures Model() == old(Model()).(list := Without(old(iteratorList), it), its := old(Model()).its[it := Iter(false, it.tx)])
    {
      ghost var s := Model();
      it.dbc := false;
      assert Model().its == s.its[it := it.Fields()];
      Unlist(it);
    }

    /**
     close(). The iterator leaves the list even when an exception comes out. One does exactly when the cursor could
     not be closed, unless that was a deadlock in the iterator's own transaction, or its commit failed.
     */
    method Close(it: IteratorHelper) returns (threw: bool, ghost cursor: Closing, ghost fails: bool)
      requires Valid() && it in its
      modifies this`iteratorList, this`thrown, it, txs
      ensures Valid() && its == old(its) && txs == old(txs)
      ensures Model() == if it in old(iteratorList) then Dropped(old(Model()), it, fails) else old(Model())
      ensures threw == (it in old(iteratorList) && (cursor.CloseFailed? || (cursor.CloseDeadlock? && old(it.tx).None?) || fails))
      ensures fails ==> old(it.tx).Some? && var t := old(it.tx).value; t.refs == 0 && !t.dead && t.ending.CommitFailed?
      ensures thrown == old(thrown) + if threw then 1 else 0
    {
      threw, cursor, fails := false, Closed, false;
      assert Model().its[it] == it.Fields();
      if it.dbc {
        threw, cursor, fails := CloseOpen(it);
      }
    }

    method CloseOpen(it: IteratorHelper) returns (threw: bool, ghost cursor: Closing, ghost fails: bool)
      requires Valid() && it in its && it in iteratorList
      modifies this`iteratorList, this`thrown, it, txs
      ensures Valid() && its == old(its) && txs == old(txs)
      ensures Model() == Dropped(old(Model()), it, fails)
      ensures threw == (cursor.CloseFailed? || (cursor.CloseDeadlock? && old(it.tx).None?) || fails)
      ensures fails ==> old(it.tx).Some? && var t := old(it.tx).value; t.refs == 0 && !t.dead && t.ending.CommitFailed?
      ensures thrown == old(thrown) + if threw then 1 else 0
    {
      var r: Closing := *;   // what the database answers
      cursor := r;
      threw := r.CloseFailed? || (r.CloseDeadlock? && it.tx.None?);
      var commitFailed := CleanupListed(it);
      fails := commitFailed;
      threw := threw || commitFailed;
      Count(threw);
    }

    ghost method Count(threw: bool)
      modifies this`thrown
      ensures thrown == old(thrown) + if threw then 1 else 0
      ensures Model() == old(Model())
    {
      if threw {
        thrown := thrown + 1;
      }
    }

    /** The first `q` entries are `t`'s, whose entries are `kept`. */
    ghost predicate Searching(q: nat, t: TxObject, kept: seq<IteratorHelper>)
      reads this`iteratorList, this`its, this`txs, its, txs
    {
      && Valid() && q <= |iteratorList|
      && (forall k :: 0 <= k < q ==> Owns(Model(), iteratorList[k], t))
      && Of(Model(), iteratorList, t) == kept
    }

    /** Leave the list to the iterators of `t`; false if an exception stopped it. The search starts over after each one it closes. */
    method CloseAllIteratorsExcept(t: TxObject) returns (ok: bool)
      requires Valid()
      modifies this`iteratorList, this`thrown, its, txs
      ensures thrown == old(thrown) + if ok then 0 else 1
      ensures Valid() && its == old(its) && txs == old(txs)
      ensures Of(Model(), iteratorList, t) == Of(old(Model()), old(iteratorList), t)
      ensures t in txs ==> t.Fields() == old(t.Fields())
      ensures ok ==> iteratorList == Of(old(Model()), old(iteratorList), t)
      ensures ok ==> forall u | u in txs && u != t :: Model().txs[u].refs == 0 && Model().txs[u].ends == 1
    {
      var q := 0;
      ghost var kept := Of(Model(), iteratorList, t);
      while q < |iteratorList|
        invariant its == old(its) && txs == old(txs) && thrown == old(thrown) && Searching(q, t, kept)
        invariant t in txs ==> t.Fields() == old(t.Fields())
        decreases |iteratorList|, |iteratorList| - q
      {
        var it := iteratorList[q];
        Listed(it);
        if it.tx == Some(t) {
          q := q + 1;
        } else {
          var threw := CloseOther(it, t);
          if threw {
            return false;
          }
          q := 0;
        }
      }
      OnlyOf(Model(), t);
      ok := true;
    }

    /** Close one iterator of another transaction, or of none. */
    method CloseOther(it: IteratorHelper, t: TxObject) returns (threw: bool)
      requires Valid() && it in iteratorList && it in its && it.tx != Some(t)
      modifies this`iteratorList, this`thrown, it, txs
      ensures thrown == old(thrown) + if threw then 1 else 0
      ensures Valid() && its == old(its) && txs == old(txs)
      ensures Of(Model(), iteratorList, t) == Of(old(Model()), old(iteratorList), t)
      ensures |iteratorList| < |old(iteratorList)|
      ensures forall i | i in iteratorList :: i in old(iteratorList) && i != it
      ensures t in txs ==> t.Fields() == old(t.Fields())
    {
      ghost var s := Model();
      ghost var cursor, fails;
      threw, cursor, fails := Close(it);
      DroppedOf(s, it, fails, t);
      WithoutNoDup(s.list, it);
      assert t in txs ==> Model().txs[t] == s.txs[t];
    }

    /** closeAllIterators, before a write outside any transaction; false if an exception stopped it. */
    method CloseAllIterators() returns (ok: bool)
      requires Valid()
      modifies this`iteratorList, this`thrown, its, txs
      ensures thrown == old(thrown) + if ok then 0 else 1
      ensures Valid() && its == old(its) && txs == old(txs)
      ensures ok ==> iteratorList == [] && forall u | u in txs :: Model().txs[u].refs == 0 && Model().txs[u].ends == 1
    {
      while iteratorList != []
        invariant Valid() && its == old(its) && txs == old(txs) && thrown == old(thrown)
        decreases |iteratorList|
      {
        Listed(iteratorList[0]);
        ghost var s := Model();
        WithoutNoDup(s.list, iteratorList[0]);
        var threw, _, _ := Close(iteratorList[0]);
        if threw {
          return false;
        }
      }
      NobodyLeft(Model());
      ok := true;
    }

    /** One operation on an open cursor, with what the database makes of it; a deadlock marks the iterator's transaction dead. */
    method CursorOperation(it: IteratorHelper, mayBeGone: bool) returns (r: CursorResult)
      requires Valid() && it in iteratorList
      modifies txs
      ensures Valid() && (r.InvalidPosition? ==> mayBeGone) && !r.Refused? && !r.NotTried?
      ensures Model() == if r.Deadlocked? && it.tx.Some? && it.tx.value in txs then Deadened(old(Model()), it.tx.value) else old(Model())
      ensures it.tx.Some? ==> it.tx.value in txs
    {
      Listed(it);
      var deadlock: bool, gone: bool, failed: bool := *, *, *;
      if deadlock {
        if it.tx.Some? {
          MarkDead(it, it.tx.value);
        }
        return Deadlocked;
      }
      r := if mayBeGone && gone then InvalidPosition else if failed then DatabaseError else Done;
    }

    /** find, lowerBound, next and get: only a deadlock changes anything. */
    method Read(it: IteratorHelper) returns (r: CursorResult)
      requires Valid() && it in iteratorList
      modifies txs
      ensures Valid() && !r.Refused? && !r.NotTried?
      ensures r.Deadlocked? && it.tx.Some? ==> it.tx.value in txs && Model() == Deadened(old(Model()), it.tx.value)
      ensures !r.Deadlocked? || it.tx.None? ==> Model() == old(Model())
    {
      r := CursorOperation(it, true);
    }

    /** A write, after all iterators outside the iterator's own transaction have been closed. */
    method Write(it: IteratorHelper, mayBeGone: bool) returns (r: CursorResult)
      requires Valid() && it in iteratorList
      modifies this`iteratorList, this`thrown, its, txs
      ensures thrown == old(thrown) + if r.NotTried? then 1 else 0
      ensures Valid() && its == old(its) && txs == old(txs) && !r.Refused?
      ensures r.NotTried? ==> old(it.tx).Some?
      ensures r.InvalidPosition? ==> mayBeGone
      ensures !r.NotTried? && old(it.tx).Some? ==>
        var t := old(it.tx).value;
        && iteratorList == Of(old(Model()), old(iteratorList), t) && it in iteratorList
        && t in txs && t.dead == (old(t.dead) || r.Deadlocked?)
        && forall u | u in txs && u != t :: Model().txs[u].refs == 0 && Model().txs[u].ends == 1
      ensures old(it.tx).None? ==> Model() == old(Model())
    {
      ghost var s := Model();
      Listed(it);
      var tx := it.tx;
      if tx.Some? {
        OfMembers(s, s.list, tx.value);
        var ok := CloseAllIteratorsExcept(tx.value);
        if !ok {
          return NotTried;
        }
        OfMembers(Model(), iteratorList, tx.value);
        KeptOpen(s, it, tx.value);
      }
      r := CursorOperation(it, mayBeGone);
    }

    /** The writing iterator itself is among those that are kept. */
    lemma KeptOpen(s: State<IteratorHelper, TxObject>, it: IteratorHelper, t: TxObject)
      requires Valid() && iteratorList == Of(s, s.list, t) && it in s.list && Owns(s, it, t)
      requires Of(Model(), iteratorList, t) == iteratorList
      ensures it in iteratorList && it in its && it.tx == Some(t) && t in txs
    {
      OfMembers(s, s.list, t);
      OfMembers(Model(), iteratorList, t);
      assert it in Of(s, s.list, t);
      Listed(it);
    }

    /** set: not through an index. */
    method Set(it: IteratorHelper) returns (r: CursorResult)
      requires Valid() && it in iteratorList
      modifies this`iteratorList, this`thrown, its, txs
      ensures thrown == old(thrown) + if r.NotTried? then 1 else 0
      ensures Valid() && its == old(its) && txs == old(txs) && !r.InvalidPosition?
      ensures r.Refused? <==> it.indexed
      ensures r.Refused? ==> Model() == old(Model())
      ensures !r.Refused? && !r.NotTried? && old(it.tx).Some? ==> iteratorList == Of(old(Model()), old(iteratorList), old(it.tx).value)
    {
      if it.indexed {
        return Refused;
      }
      r := Write(it, false);
    }

    /** erase: the record may be gone. */
    method Erase(it: IteratorHelper) returns (r: CursorResult)
      requires Valid() && it in iteratorList
      modifies this`iteratorList, this`thrown, its, txs
      ensures thrown == old(thrown) + if r.NotTried? then 1 else 0
      ensures Valid() && its == old(its) && txs == old(txs) && !r.Refused?
      ensures !r.NotTried? && old(it.tx).Some? ==> iteratorList == Of(old(Model()), old(iteratorList), old(it.tx).value)
    {
      r := Write(it, true);
    }

    method MarkDead(it: IteratorHelper, t: TxObject)
      requires Valid() && t in txs && it in iteratorList && Owns(Model(), it, t)
      modifies t`dead
      ensures Valid() && Model() == Deadened(old(Model()), t)
    {
      ghost var s := Model();
      OfMembers(s, s.list, t);
      assert it in Of(s, s.list, t);
      assert TxOK(s, t);
      t.dead := true;
      assert Model().txs == Deadened(s, t).txs;
      assert Model() == Deadened(s, t);
      DeadenedOK(s, t);
    }

    /**
     A new iterator; one that may write starts a transaction of its own unless the connection has one. None if the
     transaction or the cursor could not be started: a transaction started for it has then ended.
     */
    method Open(readOnly: bool, inConnectionTx: bool, indexed: bool) returns (r: Option<IteratorHelper>)
      requires Valid()
      modifies this
      ensures Valid() && its >= old(its) && txs >= old(txs)
      ensures r.Some? ==>
        var it := r.value;
        && fresh(it) && iteratorList == old(iteratorList) + [it] && it.indexed == indexed
        && (it.tx.Some? <==> !readOnly && !inConnectionTx)
        && Model() == Added(old(Model()), it, it.tx)
      ensures r.None? ==> iteratorList == old(iteratorList) && its == old(its)
      ensures r.None? ==> forall u | u in txs && u !in old(txs) :: fresh(u) && Model().txs[u].refs == 0 && Model().txs[u].ends == 1 && !u.dead
    {
      if inConnectionTx || readOnly {
        r := OpenCursor(indexed, None);
        return;
      }
      var failed: bool := *;
      if failed {   // txn_begin
        return None;
      }
      var t := new TxObject();
      r := OpenCursor(indexed, Some(t));
    }

    method OpenCursor(indexed: bool, tx: Option<TxObject>) returns (r: Option<IteratorHelper>)
      requires Valid() && (tx.Some? ==> tx.value !in txs && tx.value.Fields() == Tx(1, false, Active, 0))
      modifies this, if tx.Some? then {tx.value} else {}
      ensures Valid() && txs == old(txs) + if tx.Some? then {tx.value} else {}
      ensures r.Some? ==>
        var it := r.value;
        && fresh(it) && its == old(its) + {it} && iteratorList == old(iteratorList) + [it] && it.indexed == indexed && it.tx == tx
        && Model() == Added(old(Model()), it, tx)
      ensures r.None? ==> iteratorList == old(iteratorList) && its == old(its)
      ensures r.None? && tx.Some? ==> tx.value.refs == 0 && tx.value.ends == 1 && !tx.value.dead
    {
      var failed: bool := *;
      if failed {
        if tx.Some? {
          EndUnused(tx.value);
        }
        return None;
      }
      var it := new IteratorHelper(indexed, tx);
      AddNew(it);
      r := Some(it);
    }

    /** A new transaction for which no iterator could be opened is committed. */
    method EndUnused(t: TxObject)
      requires Valid() && t !in txs && t.Fields() == Tx(1, false, Active, 0)
      modifies this`txs, t
      ensures Valid() && txs == old(txs) + {t} && t.refs == 0 && t.ends == 1 && !t.dead
    {
      ghost var s := Model();
      var threw := t.DecRef();
      txs := txs + {t};
      EndedOK(s, t, t.Fields());
      assert Model().its == s.its;
      assert Model().txs == s.txs[t := t.Fields()];
      assert Model() == s.(txs := s.txs[t := t.Fields()]);
    }

    method AddNew(it: IteratorHelper)
      requires Valid() && it !in its && it.dbc
      requires it.tx.Some? ==> it.tx.value !in txs && it.tx.value.Fields() == Tx(1, false, Active, 0)
      modifies this
      ensures Valid() && its == old(its) + {it} && Model() == Added(old(Model()), it, it.tx)
      ensures txs == old(txs) + if it.tx.Some? then {it.tx.value} else {}
    {
      ghost var s := Model();
      if it.tx.Some? {
        txs := txs + {it.tx.value};
      }
      iteratorList, its := iteratorList + [it], its + {it};
      assert Model().its == Added(s, it, it.tx).its;
      assert Model().txs == Added(s, it, it.tx).txs;
      assert Model() == Added(s, it, it.tx);
      AddedOK(s, it, it.tx);
    }

    /** A clone stands where the original does, in the same transaction. */
    method Clone(from: IteratorHelper) returns (it: IteratorHelper)
      requires Valid() && from in iteratorList
      modifies this, txs
      ensures Valid() && fresh(it) && iteratorList == old(iteratorList) + [it] && it.tx == old(from.tx)
      ensures Model() == Added(old(Model()), it, it.tx)
    {
      ghost var s := Model();
      Listed(from);
      CloneCounted(s, from);
      it := new IteratorHelper(from.indexed, from.tx);
      if from.tx.Some? {
        from.tx.value.refs := from.tx.value.refs + 1;
      }
      iteratorList, its := iteratorList + [it], its + {it};
      assert Model().its == Added(s, it, it.tx).its;
      assert Model().txs == Added(s, it, it.tx).txs;
      assert Model() == Added(s, it, it.tx);
      AddedOK(s, it, it.tx);
    }
  }

  /**
   How an operation through an iterator ends: it was done; the database answered with a deadlock, with no record at the
   cursor, or with another error; it is not allowed through an index; or closing another iterator threw before it was tried.
   */
  datatype CursorResult = Done | Deadlocked | InvalidPosition | DatabaseError | Refused | NotTried

  /** A transaction that has ended without an iterator. */
  lemma EndedOK<I, T>(s: State<I, T>, t: T, x: Tx)
    requires OK(s) && t !in s.txs && x.refs == 0 && x.ends == 1 && !x.dead && (x.ending.Committed? || x.ending.CommitFailed?)
    ensures OK(s.(txs := s.txs[t := x]))
  {
    var s' := s.(txs := s.txs[t := x]);
    forall u | u in s'.txs ensures TxOK(s', u) {
      OfFrame(s, s', s.list, u);
      if u == t {
        NothingOf(s, s.list, t);
      } else {
        assert TxOK(s, u);
      }
    }
  }

  /** An open iterator's transaction has not ended. */
  lemma CloneCounted<I, T>(s: State<I, T>, i: I)
    requires OK(s) && i in s.list && i in s.its
    ensures s.its[i].tx.Some? ==> s.its[i].tx.value in s.txs && s.txs[s.its[i].tx.value].refs > 0
  {
    if s.its[i].tx.Some? {
      var t := s.its[i].tx.value;
      OfMembers(s, s.list, t);
      assert Owns(s, i, t) && i in Of(s, s.list, t);
      assert TxOK(s, t);
    }
  }

  lemma NobodyLeft<I, T>(s: State<I, T>)
    requires OK(s) && s.list == []
    ensures forall u | u in s.txs :: s.txs[u].refs == 0 && s.txs[u].ends == 1
  {
    forall u | u in s.txs ensures s.txs[u].refs == 0 && s.txs[u].ends == 1 {
      assert TxOK(s, u);
    }
  }

  /** When every open iterator belongs to `t`, the list is `t`'s, and every other transaction has ended. */
  lemma OnlyOf<I, T>(s: State<I, T>, t: T)
    requires OK(s) && forall k :: 0 <= k < |s.list| ==> Owns(s, s.list[k], t)
    ensures Of(s, s.list, t) == s.list
    ensures forall u | u in s.txs && u != t :: s.txs[u].refs == 0 && s.txs[u].ends == 1
  {
    OfAll(s, s.list, t);
    forall u | u in s.txs && u != t ensures s.txs[u].refs == 0 && s.txs[u].ends == 1 {
      NothingOf(s, s.list, u);
      assert TxOK(s, u);
    }
  }
}
