/**
 The condition of the barrier is needed: between its two sections, finished() has marked the
 element modified but not yet enqueued it, and a saveNow that starts and ends there misses it.
 */
module EvictorWindow {
  import opened EvictorTypes
  import opened EvictorSections
  import opened EvictorMachine
  import opened EvictorInvariant
  import opened EvictorRefinement
  import opened EvictorRuns
  import opened EvictorMissed

  const KEY := Key("", "counter", "")

  ghost function Start(): Machine<nat> {
    Machine(Shared(map[], map[], {""}, [], 0, 10, [], []), map[KEY := "old"], map[], IdleSaver(Waiting), Open, 1)
  }

  /** One client changes the object and is inside finished; another client calls saveNow. */
  ghost function NthStep(n: nat): Step<nat>
    requires n < 10
  {
    if n == 0 then Call(1, LocateOp(KEY, true))
    else if n == 1 then PinMiss(1)
    else if n == 2 then LoadRead(1)
    else if n == 3 then Install(1, 0, 7)
    else if n == 4 then Section(1)
    else if n == 5 then Mutate(1, "new")
    else if n == 6 then FinishCall(1)
    else if n == 7 then SaveNowCall(2)
    else if n == 8 then Swap
    else SaveNowReturn(2)
  }

  /** The state after `n` of those steps. */
  ghost function Nth(n: nat): Machine<nat>
    requires n <= 10
  {
    var op := LocateOp(KEY, true);
    var sh0 := Start().sh;
    var loading := sh0.(cache := map[KEY := Placeholder(1)]);
    var x := Elem(KEY, Some(Servant(7, "old")), Clean, -1, 0, false);
    var loaded := sh0.(cache := map[KEY := Pinned(0)], elems := map[0 := x]);
    var y := x.(usage := 1);
    var used := loaded.(elems := map[0 := y], list := [0], size := 1);
    var z := y.(servant := Some(Servant(7, "new")));
    var changed := used.(elems := map[0 := z]);
    var marked := used.(elems := map[0 := z.(status := Modified)]);
    var holding, finishing := Holding(0, 7, true), Finishing(0, true);
    if n == 0 then Start()
    else if n == 1 then Start().(threads := map[1 := Pinning(op)])
    else if n == 2 then Start().(sh := loading, threads := map[1 := Loading(op)])
    else if n == 3 then Start().(sh := loading, threads := map[1 := Loaded(op, Some("old"))])
    else if n == 4 then Start().(sh := loaded, threads := map[1 := Locking(op, 0)])
    else if n == 5 then Start().(sh := used, threads := map[1 := holding])
    else if n == 6 then Start().(sh := changed, threads := map[1 := holding])
    else if n == 7 then Start().(sh := marked, threads := map[1 := finishing])
    else if n == 8 then Start().(sh := marked.(waiters := [2]), threads := map[1 := finishing, 2 := SavingNow])
    else if n == 9 then Start().(sh := marked, threads := map[1 := finishing, 2 := SavingNow])
    else Start().(sh := marked, threads := map[1 := finishing, 2 := Idle])
  }

  ghost predicate Leads(n: nat)
    requires n < 10
  {
    Enabled(Nth(n), NthStep(n)) && Nth(n + 1) == Apply(Nth(n), NthStep(n))
  }

  lemma LocateSteps()
    ensures Leads(0) && Leads(1) && Leads(2)
  {
    assert Apply(Nth(0), NthStep(0)).threads == Nth(1).threads;
    assert Apply(Nth(1), NthStep(1)).threads == Nth(2).threads;
    assert Apply(Nth(2), NthStep(2)).threads == Nth(3).threads;
  }

  lemma InstallStepAt()
    ensures Leads(3)
  {
    var s' := Apply(Nth(3), NthStep(3));
    assert s'.sh.elems == Nth(4).sh.elems && s'.sh.cache == Nth(4).sh.cache;
    assert s'.threads == Nth(4).threads;
  }

  lemma SectionStepAt()
    ensures Leads(4)
  {
    var s, s' := Nth(4), Apply(Nth(4), NthStep(4));
    assert Touch(s.sh, 0).list == [0];
    assert s'.sh.elems == Nth(5).sh.elems;
    assert s'.threads == Nth(5).threads;
  }

  lemma ChangeStep()
    ensures Leads(5)
  {
    assert Apply(Nth(5), NthStep(5)).sh.elems == Nth(6).sh.elems;
  }

  lemma FinishStep()
    ensures Leads(6)
  {
    assert Apply(Nth(6), NthStep(6)).sh.elems == Nth(7).sh.elems;
    assert Apply(Nth(6), NthStep(6)).threads == Nth(7).threads;
  }

  lemma SaveSteps()
    ensures Leads(7) && Leads(8)
  {
    assert Apply(Nth(7), NthStep(7)).threads == Nth(8).threads;
  }

  lemma ReturnStep()
    ensures Leads(9)
  {
    assert Apply(Nth(9), NthStep(9)).threads == Nth(10).threads;
  }

  lemma NewState(j: nat)
    requires 7 <= j <= 9
    ensures Get(Objects(Nth(j)), KEY) == Some("new") && Nth(j).db == map[KEY := "old"]
  {
    AbstractAt(Nth(j), KEY);
  }

  ghost function WindowRun(): Run<nat> {
    Run(seq(11, n requires 0 <= n < 11 => Nth(n)), seq(10, n requires 0 <= n < 10 => NthStep(n)))
  }

  lemma AllLead(n: nat)
    requires n < 10
    ensures Leads(n)
  {
    if n <= 2 { LocateSteps(); }
    else if n == 3 { InstallStepAt(); }
    else if n == 4 { SectionStepAt(); }
    else if n == 5 { ChangeStep(); }
    else if n == 6 { FinishStep(); }
    else if n <= 8 { SaveSteps(); }
    else { ReturnStep(); }
  }

  lemma WindowIsRun()
    ensures IsRun(WindowRun())
  {
    var r := WindowRun();
    forall i: nat | i < 10 ensures StepAt(r, i)
    {
      AllLead(i);
    }
    assert Init(Start());
  }

  lemma WindowCall()
    ensures InCall(WindowRun().states, 2, 7, 9)
  {
    assert WindowRun().states[8] == Nth(8) && WindowRun().states[9] == Nth(9);
    assert PcOf(Nth(8), 2).SavingNow? && PcOf(Nth(9), 2).SavingNow?;
  }

  lemma WindowMisses()
    ensures BarrierMissed(WindowRun().states, 7, 9, KEY)
  {
    var r := WindowRun();
    assert r.states[9] == Nth(9);
    NewState(9);
    forall j | 7 <= j <= 9 ensures Get(r.states[9].db, KEY) != Get(Abstract(r.states[j]).objects, KEY) {
      assert r.states[j] == Nth(j);
      NewState(j);
    }
  }

  /** saveNow can return although the database still has the state from before the call, and the map never had it since. */
  lemma WindowLosesBarrier()
    ensures LosesBarrier(WindowRun(), 2, 7, 9, KEY)
  {
    WindowIsRun();
    WindowCall();
    WindowMisses();
    assert WindowRun().steps[7] == NthStep(7) && WindowRun().steps[9] == NthStep(9);
  }
}
