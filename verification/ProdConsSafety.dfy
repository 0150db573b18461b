/** Mutual exclusion, node ownership and the shape of the chain, in every reachable state. */
module ProdConsSafety {
  import opened Wrappers
  import opened ProdConsSteps

  predicate InCritical(pc: Pc) {
    (pc.Link? || pc.Publish? || pc.PUnlock? || pc.Test? || pc.Wait? || pc.Take? || pc.Advance? || pc.CUnlock?)
  }

  /** The thread is the only owner of the node `mp` points to. */
  predicate Holding(pc: Pc) {
    (pc.PLock? || pc.Link? || pc.Publish? || pc.CUnlock? || pc.Free?)
  }

  predicate Holds(s: State, t: Tid, a: Addr) {
    t < |s.threads| && Holding(s.threads[t].pc) && s.threads[t].mp == Some(a)
  }

  function At(chain: seq<Addr>, k: nat): Option<Addr> {
    if k < |chain| then Some(chain[k]) else None
  }

  /** `chain` lists the cells met by following `next` from `head` until NULL. */
  predicate Linked(heap: map<Addr, Cell>, head: Option<Addr>, chain: seq<Addr>) {
    && head == At(chain, 0)
    && forall k :: 0 <= k < |chain| ==> chain[k] in heap && heap[chain[k]].next == At(chain, k + 1)
  }

  predicate Distinct(chain: seq<Addr>) {
    forall j, k :: 0 <= j < k < |chain| ==> chain[j] != chain[k]
  }

  /** Control of one thread: its role, its counter, and whether it owns the lock. */
  predicate ControlOk(n: nat, t: Tid, th: Thread, lock: Option<Tid>) {
    && (th.pc.Done? <==> th.i == n) && th.i <= n
    && (th.role.Producer? <==> th.pc.Malloc? || th.pc.PLock? || th.pc.Link? || th.pc.Publish?
                               || th.pc.PUnlock? || th.pc.Signal? || (th.pc.Done? && th.role.Producer?))
    && (InCritical(th.pc) <==> lock == Some(t))
  }

  /** What a thread knows about the memory: the node it owns, and what the critical section taught it. */
  predicate DataOk(th: Thread, s: State) {
    && (Holding(th.pc) ==> th.mp.Some? && th.mp.value in s.heap && th.mp.value !in s.chain)
    && (th.pc.Publish? ==> NextOf(s.heap, th.mp) == s.head)
    && (th.pc.Wait? ==> s.chain == [])
    && (th.pc.Take? || th.pc.Advance? ==> s.chain != [])
    && (th.pc.Advance? ==> th.mp == s.head)
  }

  ghost predicate Control(n: nat, s: State) {
    && (s.lock.Some? ==> s.lock.value < |s.threads|)
    && forall t :: 0 <= t < |s.threads| ==> ControlOk(n, t, s.threads[t], s.lock)
  }

  ghost predicate Data(s: State) {
    forall t :: 0 <= t < |s.threads| ==> DataOk(s.threads[t], s)
  }

  ghost predicate Unshared(ths: seq<Thread>) {
    forall t, u :: 0 <= t < u < |ths| && Holding(ths[t].pc) && Holding(ths[u].pc) ==> ths[t].mp != ths[u].mp
  }

  ghost predicate NoLeak(s: State) {
    forall a :: a in s.heap && a !in s.chain ==> exists t :: Holds(s, t, a)
  }

  ghost predicate Chained(s: State) {
    Linked(s.heap, s.head, s.chain) && Distinct(s.chain)
  }

  ghost predicate Safe(n: nat, s: State) {
    Control(n, s) && Chained(s) && Data(s) && Unshared(s.threads) && NoLeak(s)
  }

  lemma ControlRun(n: nat, s: State, t: Tid, u: Tid)
    requires Enabled(s, Run(t)) && u < |s.threads|
    requires ControlOk(n, t, s.threads[t], s.lock) && ControlOk(n, u, s.threads[u], s.lock)
    ensures ControlOk(n, u, RunStep(n, s, t).threads[u], RunStep(n, s, t).lock)
  {
  }

  lemma ControlStep(n: nat, s: State, a: Action)
    requires Control(n, s) && Enabled(s, a)
    ensures Control(n, Apply(n, s, a))
  {
    if a.Run? {
      forall u | 0 <= u < |s.threads|
        ensures ControlOk(n, u, RunStep(n, s, a.t).threads[u], RunStep(n, s, a.t).lock)
      {
        assert ControlOk(n, a.t, s.threads[a.t], s.lock) && ControlOk(n, u, s.threads[u], s.lock);
        ControlRun(n, s, a.t, u);
      }
    } else {
      ControlQuiet(n, s, a);
    }
  }

  lemma ControlQuiet(n: nat, s: State, a: Action)
    requires Control(n, s) && Enabled(s, a) && !a.Run?
    ensures Control(n, Apply(n, s, a))
  {
    var s' := Apply(n, s, a);
    forall u | 0 <= u < |s'.threads|
      ensures ControlOk(n, u, s'.threads[u], s'.lock)
    {
      if u < |s.threads| {
        assert ControlOk(n, u, s.threads[u], s.lock);
        ControlOther(n, s, a, u);
      }
    }
  }

  lemma ControlOther(n: nat, s: State, a: Action, u: Tid)
    requires Enabled(s, a) && !a.Run? && u < |s.threads| && ControlOk(n, u, s.threads[u], s.lock)
    ensures ControlOk(n, u, Apply(n, s, a).threads[u], s.lock)
  {
  }

  lemma LinkedFrame(heap: map<Addr, Cell>, heap': map<Addr, Cell>, head: Option<Addr>, chain: seq<Addr>)
    requires Linked(heap, head, chain)
    requires forall k :: 0 <= k < |chain| ==> chain[k] in heap' && heap'[chain[k]] == heap[chain[k]]
    ensures Linked(heap', head, chain)
  {
  }

  lemma ChainedPush(heap: map<Addr, Cell>, head: Option<Addr>, chain: seq<Addr>, a: Addr)
    requires Linked(heap, head, chain) && Distinct(chain)
    requires a in heap && heap[a].next == head && a !in chain
    ensures Linked(heap, Some(a), [a] + chain) && Distinct([a] + chain)
  {
    var c := [a] + chain;
    forall k | 0 <= k < |c|
      ensures c[k] in heap && heap[c[k]].next == At(c, k + 1)
    {
      assert k > 0 ==> At(c, k + 1) == At(chain, k);
    }
  }

  lemma ChainedPop(heap: map<Addr, Cell>, head: Option<Addr>, chain: seq<Addr>)
    requires Linked(heap, head, chain) && Distinct(chain) && chain != []
    ensures chain[0] in heap && Linked(heap, heap[chain[0]].next, chain[1..]) && Distinct(chain[1..])
    ensures chain[0] !in chain[1..]
  {
    LinkedTail(heap, head, chain);
  }

  lemma ChainedRun(n: nat, s: State, t: Tid)
    requires Control(n, s) && Chained(s) && Enabled(s, Run(t)) && DataOk(s.threads[t], s)
    ensures Chained(Apply(n, s, Run(t)))
  {
    var s' := Apply(n, s, Run(t));
    var th := s.threads[t];
    match th.pc
    case Publish => ChainedPush(s.heap, s.head, s.chain, th.mp.value);
    case Advance => ChainedPop(s.heap, s.head, s.chain);
    case _ => LinkedFrame(s.heap, s'.heap, s.head, s.chain);
  }

  lemma ChainedStep(n: nat, s: State, a: Action)
    requires Control(n, s) && Chained(s) && Data(s) && Enabled(s, a)
    ensures Chained(Apply(n, s, a))
  {
    if a.Run? {
      ChainedRun(n, s, a.t);
    } else {
      LinkedFrame(s.heap, Apply(n, s, a).heap, s.head, s.chain);
    }
  }

  lemma DataSelf(n: nat, s: State, t: Tid)
    requires Control(n, s) && Chained(s) && Enabled(s, Run(t)) && DataOk(s.threads[t], s)
    ensures DataOk(Apply(n, s, Run(t)).threads[t], Apply(n, s, Run(t)))
  {
    if s.threads[t].pc.Advance? {
      ChainedPop(s.heap, s.head, s.chain);
    }
  }

  /** A step of `t` does not disturb what another thread knows. */
  lemma DataOther(n: nat, s: State, t: Tid, u: Tid)
    requires Control(n, s) && Chained(s) && Enabled(s, Run(t)) && u < |s.threads| && u != t
    requires DataOk(s.threads[t], s) && DataOk(s.threads[u], s)
    requires Holding(s.threads[t].pc) && Holding(s.threads[u].pc) ==> s.threads[t].mp != s.threads[u].mp
    ensures DataOk(s.threads[u], Apply(n, s, Run(t)))
  {
    assert ControlOk(n, t, s.threads[t], s.lock) && ControlOk(n, u, s.threads[u], s.lock);
  }

  lemma DataStep(n: nat, s: State, a: Action)
    requires Control(n, s) && Chained(s) && Data(s) && Unshared(s.threads) && Enabled(s, a)
    ensures Data(Apply(n, s, a))
  {
    if a.Run? {
      forall u | 0 <= u < |s.threads|
        ensures DataOk(RunStep(n, s, a.t).threads[u], RunStep(n, s, a.t))
      {
        assert DataOk(s.threads[u], s) && DataOk(s.threads[a.t], s);
        if u == a.t { DataSelf(n, s, u); } else { DataOther(n, s, a.t, u); }
      }
    } else {
      DataQuiet(n, s, a);
    }
  }

  lemma DataQuiet(n: nat, s: State, a: Action)
    requires Chained(s) && Data(s) && Enabled(s, a) && !a.Run?
    ensures Data(Apply(n, s, a))
  {
  }

  /** A node in the hand of `t` after a statement was there before, unless `t` has just popped it. */
  lemma HandRun(n: nat, s: State, t: Tid)
    requires Enabled(s, Run(t)) && Holding(RunStep(n, s, t).threads[t].pc)
    ensures RunStep(n, s, t).threads[t].mp == s.threads[t].mp
    ensures Holding(s.threads[t].pc) || s.threads[t].pc.Advance?
  {
  }

  lemma UnsharedRun(n: nat, s: State, t: Tid, u: Tid)
    requires Chained(s) && Enabled(s, Run(t)) && u < |s.threads| && u != t
    requires DataOk(s.threads[t], s) && DataOk(s.threads[u], s)
    requires Holding(s.threads[t].pc) && Holding(s.threads[u].pc) ==> s.threads[t].mp != s.threads[u].mp
    ensures var x := RunStep(n, s, t).threads[t];
      Holding(x.pc) && Holding(s.threads[u].pc) ==> x.mp != s.threads[u].mp
  {
    if Holding(RunStep(n, s, t).threads[t].pc) {
      HandRun(n, s, t);
    }
  }

  lemma UnsharedOther(n: nat, s: State, a: Action)
    requires Data(s) && Unshared(s.threads) && Enabled(s, a) && !a.Run?
    ensures Unshared(Apply(n, s, a).threads)
  {
    var ths := Apply(n, s, a).threads;
    forall t, u | 0 <= t < u < |ths| && Holding(ths[t].pc) && Holding(ths[u].pc)
      ensures ths[t].mp != ths[u].mp
    {
      assert u < |s.threads|;
      assert DataOk(s.threads[t], s) && DataOk(s.threads[u], s);
    }
  }

  lemma UnsharedPair(n: nat, s: State, x: Tid, t: Tid, u: Tid)
    requires Chained(s) && Data(s) && Unshared(s.threads) && Enabled(s, Run(x)) && t < u < |s.threads|
    ensures var ths := RunStep(n, s, x).threads;
      Holding(ths[t].pc) && Holding(ths[u].pc) ==> ths[t].mp != ths[u].mp
  {
    assert DataOk(s.threads[t], s) && DataOk(s.threads[u], s);
    if t == x { UnsharedRun(n, s, t, u); }
    if u == x { UnsharedRun(n, s, u, t); }
  }

  lemma UnsharedStep(n: nat, s: State, a: Action)
    requires Chained(s) && Data(s) && Unshared(s.threads) && Enabled(s, a)
    ensures Unshared(Apply(n, s, a).threads)
  {
    if a.Run? {
      var ths := RunStep(n, s, a.t).threads;
      forall t, u | 0 <= t < u < |ths|
        ensures Holding(ths[t].pc) && Holding(ths[u].pc) ==> ths[t].mp != ths[u].mp
      {
        UnsharedPair(n, s, a.t, t, u);
      }
    } else {
      UnsharedOther(n, s, a);
    }
  }

  /** A statement other than a pop takes no node off the chain, and only frees what its thread holds. */
  lemma KeptRun(n: nat, s: State, t: Tid, b: Addr)
    requires Enabled(s, Run(t)) && !s.threads[t].pc.Advance?
    requires b in RunStep(n, s, t).heap && b !in RunStep(n, s, t).chain
    ensures b in s.heap && b !in s.chain
    ensures forall u :: Holds(s, u, b) ==> Holds(RunStep(n, s, t), u, b)
  {
  }

  lemma NoLeakRun(n: nat, s: State, t: Tid, b: Addr)
    requires Enabled(s, Run(t)) && DataOk(s.threads[t], s) && Chained(s) && NoLeak(s)
    requires b in RunStep(n, s, t).heap && b !in RunStep(n, s, t).chain
    ensures exists u :: Holds(RunStep(n, s, t), u, b)
  {
    if s.threads[t].pc.Advance? {
      NoLeakAdvance(n, s, t, b);
    } else {
      KeptRun(n, s, t, b);
      var u :| Holds(s, u, b);
      assert Holds(RunStep(n, s, t), u, b);
    }
  }

  lemma NoLeakAdvance(n: nat, s: State, t: Tid, b: Addr)
    requires Enabled(s, Run(t)) && s.threads[t].pc.Advance? && DataOk(s.threads[t], s) && Chained(s) && NoLeak(s)
    requires b in s.heap && b !in s.chain[1..]
    ensures exists u :: Holds(RunStep(n, s, t), u, b)
  {
    if b == s.chain[0] {
      assert Holds(RunStep(n, s, t), t, b);
    } else {
      assert s.chain == [s.chain[0]] + s.chain[1..];
      var u :| Holds(s, u, b);
      assert Holds(RunStep(n, s, t), u, b);
    }
  }

  lemma NoLeakOther(n: nat, s: State, a: Action, b: Addr)
    requires Enabled(s, a) && !a.Run? && NoLeak(s)
    requires b in Apply(n, s, a).heap && b !in s.chain
    ensures exists u :: Holds(Apply(n, s, a), u, b)
  {
    var s' := Apply(n, s, a);
    if a.Alloc? && b == a.a {
      assert Holds(s', a.t, b);
    } else {
      var u :| Holds(s, u, b);
      assert Holds(s', u, b);
    }
  }

  lemma NoLeakStep(n: nat, s: State, a: Action)
    requires Data(s) && Chained(s) && NoLeak(s) && Enabled(s, a)
    ensures NoLeak(Apply(n, s, a))
  {
    forall b | b in Apply(n, s, a).heap && b !in Apply(n, s, a).chain
      ensures exists t :: Holds(Apply(n, s, a), t, b)
    {
      if a.Run? {
        assert DataOk(s.threads[a.t], s);
        NoLeakRun(n, s, a.t, b);
      } else {
        NoLeakOther(n, s, a, b);
      }
    }
  }

  lemma SafeStep(n: nat, s: State, a: Action)
    requires Safe(n, s) && Enabled(s, a)
    ensures Safe(n, Apply(n, s, a))
  {
    ControlStep(n, s, a);
    ChainedStep(n, s, a);
    DataStep(n, s, a);
    UnsharedStep(n, s, a);
    NoLeakStep(n, s, a);
  }

  lemma {:induction false} SafeExec(n: nat, acts: seq<Action>, s: State)
    requires Exec(n, START, acts) == Some(s)
    ensures Safe(n, s)
  {
    if acts != [] {
      var k := |acts| - 1;
      var m := Exec(n, START, acts[..k]).value;
      SafeExec(n, acts[..k], m);
      SafeStep(n, m, acts[k]);
    }
  }

  /** At most one thread is inside a critical section, in every interleaving. */
  lemma MutualExclusion(n: nat, acts: seq<Action>, s: State, t: Tid, u: Tid)
    requires Exec(n, START, acts) == Some(s)
    requires t < |s.threads| && InCritical(s.threads[t].pc)
    requires u < |s.threads| && InCritical(s.threads[u].pc)
    ensures t == u
  {
    SafeExec(n, acts, s);
    assert ControlOk(n, t, s.threads[t], s.lock) && ControlOk(n, u, s.threads[u], s.lock);
  }

  /** No statement ever goes through a null or freed pointer, and no node is freed twice. */
  lemma NoInvalidAccess(n: nat, acts: seq<Action>, s: State, t: Tid)
    requires Exec(n, START, acts) == Some(s)
    requires t < |s.threads|
    requires var pc := s.threads[t].pc; pc.Link? || pc.Publish? || pc.Advance? || pc.Free?
    ensures s.threads[t].mp.Some? && s.threads[t].mp.value in s.heap
  {
    SafeExec(n, acts, s);
    assert DataOk(s.threads[t], s);
  }

  /** Every allocated node has one owner: the chain, once, or one thread; nobody owns a freed node. */
  lemma OneOwner(n: nat, acts: seq<Action>, s: State, a: Addr)
    requires Exec(n, START, acts) == Some(s)
    ensures a in s.heap <==> a in s.chain || exists t :: Holds(s, t, a)
    ensures a in s.chain ==> forall t :: !Holds(s, t, a)
    ensures forall t, u :: Holds(s, t, a) && Holds(s, u, a) ==> t == u
    ensures forall j, k :: 0 <= j < |s.chain| && 0 <= k < |s.chain| && s.chain[j] == s.chain[k] ==> j == k
    ensures Linked(s.heap, s.head, s.chain)
  {
    SafeExec(n, acts, s);
    forall t: nat | Holds(s, t, a)
      ensures a in s.heap && a !in s.chain
    {
      assert DataOk(s.threads[t], s);
    }
  }

  /** The list found by following `next` is unique, so `chain` is determined by `head` and the heap. */
  lemma {:induction false} ChainUnique(heap: map<Addr, Cell>, head: Option<Addr>, c: seq<Addr>, d: seq<Addr>)
    requires Linked(heap, head, c) && Linked(heap, head, d)
    ensures c == d
    decreases |c|
  {
    if c != [] && d != [] {
      assert c[0] == d[0];
      LinkedTail(heap, head, c);
      LinkedTail(heap, head, d);
      ChainUnique(heap, heap[c[0]].next, c[1..], d[1..]);
    }
  }

  lemma LinkedTail(heap: map<Addr, Cell>, head: Option<Addr>, chain: seq<Addr>)
    requires Linked(heap, head, chain) && chain != []
    ensures Linked(heap, heap[chain[0]].next, chain[1..])
  {
    var c := chain[1..];
    assert heap[chain[0]].next == At(chain, 1) == At(c, 0);
    forall k | 0 <= k < |c|
      ensures c[k] in heap && heap[c[k]].next == At(c, k + 1)
    {
      assert c[k] == chain[k + 1] && At(chain, k + 2) == At(c, k + 1);
    }
  }
}
