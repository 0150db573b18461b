/** The invariant of the whole system, and what each statement does to stack, hands and traces under it. */
module ProdConsInvariant {
  import opened Wrappers
  import opened ProdConsSteps
  import opened ProdConsSafety
  import opened ProdConsHistory
  import opened ProdConsProgress

  ghost predicate Sound(n: nat, s: State) {
    Live(n, s) && Signed(s) && Traced(s) && Replay([], s.ops) == Some(Content(s))
  }

  lemma {:induction false} SoundExec(n: nat, s: State, acts: seq<Action>, s': State)
    requires Sound(n, s) && Exec(n, s, acts) == Some(s')
    ensures Sound(n, s')
  {
    if acts != [] {
      var k := |acts| - 1;
      var m := Exec(n, s, acts[..k]).value;
      SoundExec(n, s, acts[..k], m);
      SoundStep(n, m, acts[k]);
    }
  }

  lemma SoundStep(n: nat, s: State, a: Action)
    requires Sound(n, s) && Enabled(s, a)
    ensures Sound(n, Apply(n, s, a))
  {
    LiveStep(n, s, a);
    ContentStep(n, s, a);
    SignedStep(n, s, a);
    TracedStep(n, s, a);
  }

  lemma StartSound(n: nat)
    ensures Sound(n, START)
  {
    assert Content(START) == [];
  }

  // ----- What the statements mean -----

  /** Nobody but thread `t` owns the node at `a`. */
  ghost predicate OnlyHolder(s: State, t: Tid, a: Addr) {
    Holds(s, t, a) && a !in s.chain && forall u :: u != t ==> !Holds(s, u, a)
  }

  ghost predicate OnlyInside(s: State, t: Tid) {
    forall u :: 0 <= u < |s.threads| && u != t ==> !InCritical(s.threads[u].pc)
  }

  ghost predicate NobodyInside(s: State) {
    forall u :: 0 <= u < |s.threads| ==> !InCritical(s.threads[u].pc)
  }

  lemma HeldOnce(n: nat, s: State, t: Tid, a: Addr)
    requires Sound(n, s) && Holds(s, t, a)
    ensures OnlyHolder(s, t, a)
  {
    assert DataOk(s.threads[t], s);
  }

  lemma LockOwner(n: nat, s: State, t: Tid)
    requires Control(n, s) && s.lock == Some(t)
    ensures OnlyInside(s, t)
  {
    forall u | 0 <= u < |s.threads| && u != t
      ensures !InCritical(s.threads[u].pc)
    {
      assert ControlOk(n, u, s.threads[u], s.lock);
    }
  }

  lemma LockFree(n: nat, s: State)
    requires Control(n, s) && s.lock == None
    ensures NobodyInside(s)
  {
    forall u | 0 <= u < |s.threads|
      ensures !InCritical(s.threads[u].pc)
    {
      assert ControlOk(n, u, s.threads[u], s.lock);
    }
  }

  /** What one action does to the content is what the operations it records do to a sequential stack. */
  lemma ReplayStep(n: nat, s: State, a: Action)
    requires Sound(n, s) && Enabled(s, a)
    ensures s.ops <= Apply(n, s, a).ops
    ensures Replay(Content(s), Apply(n, s, a).ops[|s.ops|..]) == Some(Content(Apply(n, s, a)))
  {
    OpsGrow(n, s, a);
    ContentStep(n, s, a);
    ReplayRest(s.ops, Apply(n, s, a).ops, Content(s), Content(Apply(n, s, a)));
  }

  lemma ReplayRest(ops: seq<Op>, ops': seq<Op>, c: seq<int>, c': seq<int>)
    requires ops <= ops' && Replay([], ops) == Some(c) && Replay([], ops') == Some(c')
    ensures Replay(c, ops'[|ops|..]) == Some(c')
  {
    assert ops' == ops + ops'[|ops|..];
    OpsConcat([], ops, ops'[|ops|..], 0);
  }

  lemma OpsGrow(n: nat, s: State, a: Action)
    requires Enabled(s, a)
    ensures s.ops <= Apply(n, s, a).ops
  {
    if a.Run? {
      RunEmits(n, s, a.t);
    }
  }

  function Last(q: seq<int>): int
    requires q != []
  {
    q[|q| - 1]
  }

  lemma PublishMeans(n: nat, s: State, t: Tid)
    requires Sound(n, s) && Enabled(s, Run(t)) && s.threads[t].pc.Publish?
    ensures var s' := Apply(n, s, Run(t));
      && ProducedBy(s'.out, t) == PushedBy(s'.ops, t) != []
      && Content(s') == [Last(ProducedBy(s'.out, t))] + Content(s)
  {
    assert DataOk(s.threads[t], s) && InOrder(s, t, s.threads[t]) && ControlOk(n, t, s.threads[t], s.lock);
    ContentPublish(n, s, t);
    Projections(n, s, t, t);
  }

  lemma AdvanceMeans(n: nat, s: State, t: Tid)
    requires Sound(n, s) && Enabled(s, Run(t)) && s.threads[t].pc.Advance?
    ensures var s' := Apply(n, s, Run(t));
      && s.chain != [] && Holds(s', t, s.chain[0])
      && PoppedBy(s'.ops, t) != []
      && Content(s) == [Last(PoppedBy(s'.ops, t))] + Content(s')
  {
    assert DataOk(s.threads[t], s);
    Popped(n, s, t);
  }

  lemma Popped(n: nat, s: State, t: Tid)
    requires Chained(s) && Enabled(s, Run(t)) && DataOk(s.threads[t], s) && s.threads[t].pc.Advance?
    ensures var s' := Apply(n, s, Run(t));
      && s.chain != [] && Holds(s', t, s.chain[0])
      && PoppedBy(s'.ops, t) != []
      && Content(s) == [Last(PoppedBy(s'.ops, t))] + Content(s')
  {
    ContentAdvance(n, s, t);
    Projections(n, s, t, t);
  }

  lemma FreeMeans(n: nat, s: State, t: Tid)
    requires Sound(n, s) && Enabled(s, Run(t)) && s.threads[t].pc.Free?
    ensures s.threads[t].mp.Some? && OnlyHolder(s, t, s.threads[t].mp.value)
    ensures var s' := Apply(n, s, Run(t));
      && s'.heap.Keys == s.heap.Keys - {s.threads[t].mp.value} && Content(s') == Content(s)
      && ConsumedBy(s'.out, t) == PoppedBy(s'.ops, t)
  {
    assert DataOk(s.threads[t], s) && InOrder(s, t, s.threads[t]) && ControlOk(n, t, s.threads[t], s.lock);
    HeldOnce(n, s, t, s.threads[t].mp.value);
    ContentRun(n, s, t);
    NodeGone(n, s, t);
    AllPrinted(n, s, t);
  }

  lemma NodeGone(n: nat, s: State, t: Tid)
    requires Enabled(s, Run(t)) && s.threads[t].pc.Free? && s.threads[t].mp.Some?
    ensures RunStep(n, s, t).heap.Keys == s.heap.Keys - {s.threads[t].mp.value}
  {
  }

  lemma AllPrinted(n: nat, s: State, t: Tid)
    requires Enabled(s, Run(t)) && s.threads[t].pc.Free? && InOrder(s, t, s.threads[t])
    ensures ConsumedBy(RunStep(n, s, t).out, t) == PoppedBy(RunStep(n, s, t).ops, t)
  {
    var v := [NumOf(s.heap, s.threads[t].mp)];
    assert PoppedBy(s.ops, t) == ConsumedBy(s.out, t) + v;
    Projections(n, s, t, t);
  }

  lemma LinkMeans(n: nat, s: State, t: Tid)
    requires Sound(n, s) && Enabled(s, Run(t)) && s.threads[t].pc.Link?
    ensures s.threads[t].mp.Some? && OnlyHolder(s, t, s.threads[t].mp.value)
    ensures var s', a := Apply(n, s, Run(t)), s.threads[t].mp.value;
      && Linked(s'.heap, Some(a), [a] + s'.chain) && Content(s') == Content(s)
      && (forall b :: b in s.heap && b != a ==> b in s'.heap && s'.heap[b] == s.heap[b])
  {
    assert DataOk(s.threads[t], s) && ControlOk(n, t, s.threads[t], s.lock);
    HeldOnce(n, s, t, s.threads[t].mp.value);
    ContentRun(n, s, t);
    ChainedStep(n, s, Run(t));
    ChainedPush(Apply(n, s, Run(t)).heap, s.head, s.chain, s.threads[t].mp.value);
  }

  lemma AllocMeans(n: nat, s: State, a: Action)
    requires Sound(n, s) && Enabled(s, a) && a.Alloc?
    ensures var s' := Apply(n, s, a);
      && OnlyHolder(s', a.t, a.a) && Content(s') == Content(s)
      && ProducedBy(s'.out, a.t) == ProducedBy(s.out, a.t) + [a.num]
  {
    SafeStep(n, s, a);
    AppendLine(s.out, Produce(a.t, a.num), a.t);
    ContentQuiet(n, s, a);
    AllocHolder(n, s, a);
  }

  lemma AllocHolder(n: nat, s: State, a: Action)
    requires Enabled(s, a) && a.Alloc? && Safe(n, Apply(n, s, a))
    ensures OnlyHolder(Apply(n, s, a), a.t, a.a)
  {
    var s' := Apply(n, s, a);
    assert Holds(s', a.t, a.a);
    assert DataOk(s'.threads[a.t], s');
  }

  lemma NotifyMeans(n: nat, s: State, a: Action)
    requires Enabled(s, a) && a.Notify?
    ensures Content(Apply(n, s, a)) == Content(s)
    ensures SomeAsleep(s) ==> exists u :: Sleeping(s, u) && !Sleeping(Apply(n, s, a), u)
    ensures forall u :: Sleeping(Apply(n, s, a), u) ==> Sleeping(s, u)
  {
    if SomeAsleep(s) {
      var u :| u in a.woken;
      assert Sleeping(s, u) && !Sleeping(Apply(n, s, a), u);
    }
  }

  lemma SpawnMeans(n: nat, s: State, role: Role)
    requires Sound(n, s)
    ensures var s' := Apply(n, s, Spawn(role));
      && Content(s') == Content(s)
      && PushedBy(s'.ops, |s.threads|) == PoppedBy(s'.ops, |s.threads|) == []
  {
    Strangers(s, |s.threads|);
  }

  lemma LockMeans(n: nat, s: State, t: Tid)
    requires Sound(n, s) && Enabled(s, Run(t))
    requires s.threads[t].pc.PLock? || s.threads[t].pc.CLock? || s.threads[t].pc.Woken?
    ensures var s' := Apply(n, s, Run(t));
      Content(s') == Content(s) && s'.lock == Some(t) && OnlyInside(s', t)
  {
    ControlStep(n, s, Run(t));
    LockOwner(n, Apply(n, s, Run(t)), t);
  }

  lemma UnlockMeans(n: nat, s: State, t: Tid)
    requires Sound(n, s) && Enabled(s, Run(t)) && (s.threads[t].pc.PUnlock? || s.threads[t].pc.CUnlock?)
    ensures Content(Apply(n, s, Run(t))) == Content(s) && NobodyInside(Apply(n, s, Run(t)))
  {
    Released(n, s, t);
  }

  lemma Released(n: nat, s: State, t: Tid)
    requires Control(n, s) && Enabled(s, Run(t)) && (s.threads[t].pc.PUnlock? || s.threads[t].pc.CUnlock?)
    ensures Content(Apply(n, s, Run(t))) == Content(s) && NobodyInside(Apply(n, s, Run(t)))
  {
    ControlStep(n, s, Run(t));
    LockFree(n, Apply(n, s, Run(t)));
  }

  lemma SpuriousMeans(n: nat, s: State, t: Tid)
    requires Enabled(s, Spurious(t))
    ensures Content(Apply(n, s, Spurious(t))) == Content(s)
    ensures forall u :: Sleeping(Apply(n, s, Spurious(t)), u) <==> Sleeping(s, u) && u != t
  {
  }

  lemma TestMeans(n: nat, s: State, t: Tid)
    requires Sound(n, s) && Enabled(s, Run(t)) && s.threads[t].pc.Test?
    ensures Content(Apply(n, s, Run(t))) == Content(s)
    ensures Apply(n, s, Run(t)).threads[t].pc == if Content(s) == [] then Wait else Take
  {
  }

  lemma WaitMeans(n: nat, s: State, t: Tid)
    requires Sound(n, s) && Enabled(s, Run(t)) && s.threads[t].pc.Wait?
    ensures Content(s) == Content(Apply(n, s, Run(t))) == []
    ensures Sleeping(Apply(n, s, Run(t)), t) && NobodyInside(Apply(n, s, Run(t)))
  {
    assert DataOk(s.threads[t], s);
    ControlStep(n, s, Run(t));
    LockFree(n, Apply(n, s, Run(t)));
  }

  lemma TakeMeans(n: nat, s: State, t: Tid)
    requires Sound(n, s) && Enabled(s, Run(t)) && s.threads[t].pc.Take?
    ensures Content(Apply(n, s, Run(t))) == Content(s)
    ensures s.chain != [] && Apply(n, s, Run(t)).threads[t].mp == Some(s.chain[0])
  {
    assert DataOk(s.threads[t], s);
  }
}
