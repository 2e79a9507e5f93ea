/**
 Which elements evict() takes: the idle ones from the tail of the list, no more than needed.
 */
module EvictionOrder {
  import opened EvictorTypes
  import opened EvictorSections

  ghost predicate Idle(x: Elem) {
    x.usage == 0
  }

  /** The entries in use, in their order. */
  ghost function Busy<E>(l: seq<E>, elems: map<E, Elem>): seq<E>
    requires forall e | e in l :: e in elems
  {
    if l == [] then []
    else if Idle(elems[l[0]]) then Busy(l[1..], elems)
    else [l[0]] + Busy(l[1..], elems)
  }

  ghost function IdleCount<E>(l: seq<E>, elems: map<E, Elem>): nat
    requires forall e | e in l :: e in elems
  {
    if l == [] then 0 else (if Idle(elems[l[0]]) then 1 else 0) + IdleCount(l[1..], elems)
  }

  /** How many entries have to go before the list fits. */
  ghost function Excess<E>(sh: Shared<E>): nat {
    if |sh.list| > sh.limit then |sh.list| - sh.limit else 0
  }

  /**
   Evicting from position `cut` on: nothing before it is touched, and after it exactly the
   idle entries go. Either that makes the list fit exactly, or every remaining entry is in use.
   */
  ghost predicate CutAt<E>(sh: Shared<E>, cut: nat, survivors: seq<E>)
    requires Listed(sh)
  {
    && cut <= |sh.list|
    && survivors == sh.list[..cut] + Busy(sh.list[cut..], sh.elems)
    && IdleCount(sh.list[cut..], sh.elems) <= Excess(sh)
    && (cut > 0 ==> IdleCount(sh.list[cut..], sh.elems) == Excess(sh))
  }

  lemma {:induction false} BusyLength<E>(l: seq<E>, elems: map<E, Elem>)
    requires forall e | e in l :: e in elems
    ensures |Busy(l, elems)| + IdleCount(l, elems) == |l|
    ensures forall e | e in Busy(l, elems) :: e in l && !Idle(elems[e])
    ensures forall e | e in l && !Idle(elems[e]) :: e in Busy(l, elems)
  {
    if l != [] {
      BusyLength(l[1..], elems);
    }
  }

  /** Busy and IdleCount only look at the usage counts. */
  lemma {:induction false} BusyFrame<E>(l: seq<E>, elems: map<E, Elem>, elems': map<E, Elem>)
    requires forall e | e in l :: e in elems && e in elems' && Idle(elems[e]) == Idle(elems'[e])
    ensures Busy(l, elems) == Busy(l, elems') && IdleCount(l, elems) == IdleCount(l, elems')
  {
    if l != [] {
      BusyFrame(l[1..], elems, elems');
    }
  }

  /** What a scan with `p` entries still to look at does, said without the scan. */
  ghost predicate ScanAt<E>(sh: Shared<E>, p: nat, cut: nat)
    requires Listed(sh)
  {
    && cut <= p <= |sh.list|
    && EvictScan(sh, p).list == sh.list[..cut] + Busy(sh.list[cut..p], sh.elems) + sh.list[p..]
    && IdleCount(sh.list[cut..p], sh.elems) <= Excess(sh)
    && (cut > 0 ==> IdleCount(sh.list[cut..p], sh.elems) == Excess(sh))
  }

  /** A list that evict() may scan from position `p`. */
  ghost predicate Scannable<E>(sh: Shared<E>, p: nat) {
    Listed(sh) && NoDup(sh.list) && sh.size == |sh.list| && p <= |sh.list|
  }

  lemma {:induction false} ScanCut<E>(sh: Shared<E>, p: nat) returns (cut: nat)
    requires Scannable(sh, p)
    ensures ScanAt(sh, p, cut)
    decreases p, 1
  {
    if sh.size <= sh.limit || p == 0 {
      cut := p;
      ScanStops(sh, p);
    } else if Idle(sh.elems[sh.list[p - 1]]) {
      cut := ScanCutIdle(sh, p);
    } else {
      cut := ScanCutBusy(sh, p);
    }
  }

  lemma {:induction false} ScanCutIdle<E>(sh: Shared<E>, p: nat) returns (cut: nat)
    requires Scannable(sh, p) && p > 0 && sh.size > sh.limit && Idle(sh.elems[sh.list[p - 1]])
    ensures ScanAt(sh, p, cut)
    decreases p, 0
  {
    var t := EvictOne(sh, sh.list[p - 1]);
    EvictOneLists(sh, p);
    cut := ScanCut(t, p - 1);
    ScanPastIdle(sh, p, cut);
  }

  lemma {:induction false} ScanCutBusy<E>(sh: Shared<E>, p: nat) returns (cut: nat)
    requires Scannable(sh, p) && p > 0 && sh.size > sh.limit && !Idle(sh.elems[sh.list[p - 1]])
    ensures ScanAt(sh, p, cut)
    decreases p, 0
  {
    cut := ScanCut(sh, p - 1);
    ScanPastBusy(sh, p, cut);
  }

  lemma ScanStops<E>(sh: Shared<E>, p: nat)
    requires Scannable(sh, p) && (sh.size <= sh.limit || p == 0)
    ensures ScanAt(sh, p, p)
  {
    assert sh.list[p..p] == [];
    assert sh.list == sh.list[..p] + [] + sh.list[p..];
  }

  lemma EvictOneLists<E>(sh: Shared<E>, p: nat)
    requires Scannable(sh, p) && p > 0
    ensures Scannable(EvictOne(sh, sh.list[p - 1]), p - 1)
    ensures EvictOne(sh, sh.list[p - 1]).list == sh.list[..p - 1] + sh.list[p..]
  {
    WithoutAt(sh.list, p - 1);
    WithoutNoDup(sh.list, sh.list[p - 1]);
  }

  lemma ScanPastIdle<E>(sh: Shared<E>, p: nat, cut: nat)
    requires Scannable(sh, p) && p > 0 && sh.size > sh.limit && Idle(sh.elems[sh.list[p - 1]])
    requires Scannable(EvictOne(sh, sh.list[p - 1]), p - 1)
    requires EvictOne(sh, sh.list[p - 1]).list == sh.list[..p - 1] + sh.list[p..]
    requires ScanAt(EvictOne(sh, sh.list[p - 1]), p - 1, cut)
    ensures ScanAt(sh, p, cut)
  {
    var t := EvictOne(sh, sh.list[p - 1]);
    CutOutSlices(sh.list, t.list, p, cut);
    BusyAcross(sh, p, cut);
    assert EvictScan(sh, p) == EvictScan(t, p - 1);
  }

  /** The entries in use, and how many are idle, from `cut` to an idle entry before `p`. */
  lemma BusyAcross<E>(sh: Shared<E>, p: nat, cut: nat)
    requires Listed(sh) && cut < p <= |sh.list| && Idle(sh.elems[sh.list[p - 1]])
    ensures forall e | e in sh.list[cut..p - 1] :: e in sh.elems && e in EvictOne(sh, sh.list[p - 1]).elems
    ensures forall e | e in sh.list[cut..p] :: e in sh.elems
    ensures Busy(sh.list[cut..p], sh.elems) == Busy(sh.list[cut..p - 1], EvictOne(sh, sh.list[p - 1]).elems)
    ensures IdleCount(sh.list[cut..p], sh.elems) == IdleCount(sh.list[cut..p - 1], EvictOne(sh, sh.list[p - 1]).elems) + 1
  {
    LastOfSlice(sh.list, p, cut);
    BusyFrame(sh.list[cut..p - 1], sh.elems, EvictOne(sh, sh.list[p - 1]).elems);
    BusySnoc(sh.list[cut..p - 1], sh.list[p - 1], sh.elems);
  }

  lemma CutOutSlices<E>(l: seq<E>, m: seq<E>, p: nat, cut: nat)
    requires cut < p <= |l| && m == l[..p - 1] + l[p..]
    ensures m[..cut] == l[..cut] && m[cut..p - 1] == l[cut..p - 1] && m[p - 1..] == l[p..]
  {
  }

  lemma LastOfSlice<E>(l: seq<E>, p: nat, cut: nat)
    requires cut < p <= |l|
    ensures l[cut..p] == l[cut..p - 1] + [l[p - 1]]
    ensures forall e | e in l[cut..p - 1] :: e in l
  {
  }

  lemma ScanPastBusy<E>(sh: Shared<E>, p: nat, cut: nat)
    requires Scannable(sh, p) && p > 0 && sh.size > sh.limit && !Idle(sh.elems[sh.list[p - 1]])
    requires ScanAt(sh, p - 1, cut)
    ensures ScanAt(sh, p, cut)
  {
    BusyMore(sh, p, cut);
    Regroup(sh.list[..cut], Busy(sh.list[cut..p - 1], sh.elems), sh.list, p);
    assert EvictScan(sh, p) == EvictScan(sh, p - 1);
  }

  lemma BusyMore<E>(sh: Shared<E>, p: nat, cut: nat)
    requires Listed(sh) && cut < p <= |sh.list| && !Idle(sh.elems[sh.list[p - 1]])
    ensures (forall e | e in sh.list[cut..p - 1] :: e in sh.elems) && forall e | e in sh.list[cut..p] :: e in sh.elems
    ensures Busy(sh.list[cut..p], sh.elems) == Busy(sh.list[cut..p - 1], sh.elems) + [sh.list[p - 1]]
    ensures IdleCount(sh.list[cut..p], sh.elems) == IdleCount(sh.list[cut..p - 1], sh.elems)
  {
    LastOfSlice(sh.list, p, cut);
    BusySnoc(sh.list[cut..p - 1], sh.list[p - 1], sh.elems);
  }

  lemma Regroup<E>(a: seq<E>, b: seq<E>, l: seq<E>, p: nat)
    requires 0 < p <= |l|
    ensures a + b + l[p - 1..] == a + (b + [l[p - 1]]) + l[p..]
  {
    assert l[p - 1..] == [l[p - 1]] + l[p..];
  }

  lemma {:induction false} BusySnoc<E>(l: seq<E>, e: E, elems: map<E, Elem>)
    requires (forall x | x in l :: x in elems) && e in elems
    ensures Busy(l + [e], elems) == Busy(l, elems) + if Idle(elems[e]) then [] else [e]
    ensures IdleCount(l + [e], elems) == IdleCount(l, elems) + if Idle(elems[e]) then 1 else 0
  {
    if l != [] {
      BusySnoc(l[1..], e, elems);
      assert (l + [e])[1..] == l[1..] + [e];
    }
  }

  lemma {:induction false} IdleCountSplit<E>(l: seq<E>, cut: nat, elems: map<E, Elem>)
    requires cut <= |l| && forall e | e in l :: e in elems
    ensures forall e | e in l[cut..] :: e in elems
    ensures IdleCount(l[cut..], elems) <= IdleCount(l, elems)
  {
    if cut > 0 {
      assert l[1..][cut - 1..] == l[cut..];
      IdleCountSplit(l[1..], cut - 1, elems);
    }
  }

  lemma InHalves<E>(l: seq<E>, cut: nat)
    requires cut <= |l|
    ensures forall e | e in l :: e in l[..cut] || e in l[cut..]
  {
    assert l == l[..cut] + l[cut..];
  }

  lemma InPrefix<E>(l: seq<E>, cut: nat, j: nat)
    requires NoDup(l) && cut <= |l| && j < |l| && l[j] in l[..cut]
    ensures j < cut
  {
  }

  /** evict() cuts the list at one position. */
  lemma EvictsAfterCut<E>(sh: Shared<E>)
    requires Listed(sh) && NoDup(sh.list) && sh.size == |sh.list|
    ensures exists cut :: CutAt(sh, cut, EvictIdle(sh).list)
  {
    var cut := ScanCut(sh, |sh.list|);
    assert sh.list[cut..|sh.list|] == sh.list[cut..];
    assert CutAt(sh, cut, EvictIdle(sh).list);
  }

  /**
   As many entries go as needed or as are idle, whichever is fewer, so the list ends within its
   limit or with every entry in use; no entry in use goes; and no idle entry stays while a more
   recently used idle one goes.
   */
  lemma EvictsFewestFromTail<E>(sh: Shared<E>)
    requires Listed(sh) && NoDup(sh.list) && sh.size == |sh.list|
    ensures |EvictIdle(sh).list| == |sh.list| - Min(Excess(sh), IdleCount(sh.list, sh.elems))
    ensures |EvictIdle(sh).list| <= sh.limit || forall e | e in EvictIdle(sh).list :: e in sh.elems && !Idle(sh.elems[e])
    ensures forall e | e in sh.list && !Idle(sh.elems[e]) :: e in EvictIdle(sh).list
    ensures forall i, j | 0 <= i < j < |sh.list| && Idle(sh.elems[sh.list[i]]) && sh.list[j] in EvictIdle(sh).list
      && Idle(sh.elems[sh.list[j]]) :: sh.list[i] in EvictIdle(sh).list
  {
    EvictsAfterCut(sh);
    var cut: nat :| CutAt(sh, cut, EvictIdle(sh).list);
    CutCounts(sh, cut, EvictIdle(sh).list);
    CutKeepsOrder(sh, cut, EvictIdle(sh).list);
  }

  lemma CutCounts<E>(sh: Shared<E>, cut: nat, survivors: seq<E>)
    requires Listed(sh) && CutAt(sh, cut, survivors)
    ensures |survivors| == |sh.list| - Min(Excess(sh), IdleCount(sh.list, sh.elems))
    ensures |survivors| <= sh.limit || forall e | e in survivors :: e in sh.elems && !Idle(sh.elems[e])
  {
    BusyLength(sh.list[cut..], sh.elems);
    IdleCountSplit(sh.list, cut, sh.elems);
    assert cut == 0 ==> sh.list[cut..] == sh.list;
  }

  lemma CutKeepsOrder<E>(sh: Shared<E>, cut: nat, survivors: seq<E>)
    requires Listed(sh) && NoDup(sh.list) && CutAt(sh, cut, survivors)
    ensures forall e | e in sh.list && !Idle(sh.elems[e]) :: e in survivors
    ensures forall i, j | 0 <= i < j < |sh.list| && Idle(sh.elems[sh.list[i]]) && sh.list[j] in survivors
      && Idle(sh.elems[sh.list[j]]) :: sh.list[i] in survivors
  {
    BusyLength(sh.list[cut..], sh.elems);
    InHalves(sh.list, cut);
    forall i, j | 0 <= i < j < |sh.list| && Idle(sh.elems[sh.list[i]]) && sh.list[j] in survivors && Idle(sh.elems[sh.list[j]])
      ensures sh.list[i] in survivors
    {
      assert sh.list[j] !in Busy(sh.list[cut..], sh.elems);
      InPrefix(sh.list, cut, j);
      assert sh.list[..cut][i] == sh.list[i];
    }
  }

  /** Evicted elements become stale and leave the cache map; nothing else about them changes. */
  lemma {:induction false} ScanEffect<E>(sh: Shared<E>, p: nat, e: E)
    requires Listed(sh) && e in sh.elems
    ensures e in EvictScan(sh, p).elems
    ensures EvictScan(sh, p).elems[e] == sh.elems[e].(stale := sh.elems[e].stale || (e in sh.list && e !in EvictScan(sh, p).list))
    ensures e in EvictScan(sh, p).list ==> e in sh.list
    decreases p
  {
    if sh.size <= sh.limit || p == 0 || p > |sh.list| {
    } else if Idle(sh.elems[sh.list[p - 1]]) {
      ScanEffect(EvictOne(sh, sh.list[p - 1]), p - 1, e);
    } else {
      ScanEffect(sh, p - 1, e);
    }
  }

  /** The list is within the limit, or nothing on it could be evicted. */
  ghost predicate Fits<E>(sh: Shared<E>) {
    |sh.list| <= sh.limit || forall e | e in sh.list :: e in sh.elems && sh.elems[e].usage != 0
  }

  lemma ScanFits<E>(sh: Shared<E>)
    requires Listed(sh) && NoDup(sh.list) && sh.size == |sh.list|
    ensures Fits(EvictScan(sh, |sh.list|))
  {
    var t := EvictScan(sh, |sh.list|);
    EvictsFewestFromTail(sh);
    EvictScanFrame(sh, |sh.list|);
    forall e | e in t.list ensures t.elems[e].usage == sh.elems[e].usage {
      ScanEffect(sh, |sh.list|, e);
    }
  }
}
