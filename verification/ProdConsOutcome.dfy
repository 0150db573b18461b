/** How the program of tid/prod_cons.c ends: everything produced is consumed and every node is freed. */
module ProdConsOutcome {
  import opened Wrappers
  import opened ProdConsSteps
  import opened ProdConsSafety
  import opened ProdConsHistory
  import opened ProdConsProgress

  lemma {:induction false} NothingInHands(v: int, heap: map<Addr, Cell>, ths: seq<Thread>)
    requires forall t :: 0 <= t < |ths| ==> ths[t].pc.Done?
    ensures InHands(v, heap, ths) == 0
  {
    if ths != [] {
      NothingInHands(v, heap, ths[1..]);
    }
  }

  lemma NothingLeft(n: nat, acts: seq<Action>, s: State)
    requires Exec(n, START, acts) == Some(s) && AllDone(s) && s.chain == []
    ensures s.heap == map[] && s.head == None && s.lock == None
  {
    LiveExec(n, START, acts, s);
    forall a | a in s.heap
      ensures false
    {
      OneOwner(n, acts, s, a);
    }
    assert s.heap.Keys == {};
    forall t | 0 <= t < |s.threads|
      ensures s.lock != Some(t)
    {
      assert ControlOk(n, t, s.threads[t], s.lock);
    }
  }

  /**
   With as many producers as consumers, every run that can only wake up spuriously has ended: all
   threads have finished, the list is empty, every node has been freed, and each value has been
   consumed exactly as often as it was produced.
   */
  lemma EndsClean(n: nat, acts: seq<Action>, s: State)
    requires Exec(n, START, acts) == Some(s) && Stuck(s)
    requires Sum(Producers, n, s.threads) == Sum(Consumers, n, s.threads)
    ensures AllDone(s) && s.head == None && s.heap == map[] && s.lock == None
    ensures forall v :: Printed(v, s.out) == Eaten(v, s.out)
  {
    Outcome(n, acts, s);
    NothingLeft(n, acts, s);
    forall v
      ensures Printed(v, s.out) == Eaten(v, s.out)
    {
      Conservation(v, n, acts, s);
      NothingInHands(v, s.heap, s.threads);
      assert Content(s) == [];
    }
  }
}
