/**
 Linearisability of the shared stack: the pushes and pops, ordered by the assignments to `head`,
 always form a legal history of a sequential LIFO stack whose content is the chain, and each
 thread's printed lines are its own operations in program order.
 */
module ProdConsHistory {
  import opened Wrappers
  import opened ProdConsSteps
  import opened ProdConsSafety

  /** The sequential stack, top first: the content after `ops`, or None if some pop is not of the top. */
  function Replay(base: seq<int>, ops: seq<Op>): Option<seq<int>> {
    if ops == [] then Some(base) else
      match Replay(base, ops[..|ops| - 1])
      case None => None
      case Some(st) =>
        match ops[|ops| - 1]
        case Push(_, v) => Some([v] + st)
        case Pop(_, v) => if st != [] && st[0] == v then Some(st[1..]) else None
  }

  function NumAt(heap: map<Addr, Cell>, a: Addr): int {
    NumOf(heap, Some(a))
  }

  function Values(heap: map<Addr, Cell>, chain: seq<Addr>): (r: seq<int>)
    ensures |r| == |chain|
    ensures forall k :: 0 <= k < |chain| ==> r[k] == NumAt(heap, chain[k])
  {
    seq(|chain|, k requires 0 <= k < |chain| => NumAt(heap, chain[k]))
  }

  function Content(s: State): seq<int> {
    Values(s.heap, s.chain)
  }

  function PushedBy(ops: seq<Op>, t: Tid): seq<int> {
    if ops == [] then [] else
      var o := ops[|ops| - 1];
      PushedBy(ops[..|ops| - 1], t) + if o.Push? && o.t == t then [o.num] else []
  }

  function PoppedBy(ops: seq<Op>, t: Tid): seq<int> {
    if ops == [] then [] else
      var o := ops[|ops| - 1];
      PoppedBy(ops[..|ops| - 1], t) + if o.Pop? && o.t == t then [o.num] else []
  }

  function ProducedBy(out: seq<Line>, t: Tid): seq<int> {
    if out == [] then [] else
      var o := out[|out| - 1];
      ProducedBy(out[..|out| - 1], t) + if o.Produce? && o.t == t then [o.num] else []
  }

  function ConsumedBy(out: seq<Line>, t: Tid): seq<int> {
    if out == [] then [] else
      var o := out[|out| - 1];
      ConsumedBy(out[..|out| - 1], t) + if o.Consume? && o.t == t then [o.num] else []
  }

  /** The value of the node thread `th` holds on its way to the stack. */
  function Incoming(s: State, th: Thread): seq<int> {
    if th.pc.PLock? || th.pc.Link? || th.pc.Publish? then [NumOf(s.heap, th.mp)] else []
  }

  /** The value of the node thread `th` has popped and not yet printed. */
  function Outgoing(s: State, th: Thread): seq<int> {
    if th.pc.CUnlock? || th.pc.Free? then [NumOf(s.heap, th.mp)] else []
  }

  /** A thread prints its node before pushing it, and pops a node before printing it. */
  predicate Ordered(s: State, th: Thread, produced: seq<int>, pushed: seq<int>, popped: seq<int>, consumed: seq<int>) {
    && produced == pushed + Incoming(s, th)
    && popped == consumed + Outgoing(s, th)
    && |pushed| == (if th.role.Producer? then th.i + (if th.pc.PUnlock? || th.pc.Signal? then 1 else 0) else 0)
    && |popped| == (if th.role.Consumer? then th.i + (if th.pc.CUnlock? || th.pc.Free? then 1 else 0) else 0)
  }

  predicate InOrder(s: State, t: Tid, th: Thread) {
    Ordered(s, th, ProducedBy(s.out, t), PushedBy(s.ops, t), PoppedBy(s.ops, t), ConsumedBy(s.out, t))
  }

  ghost predicate Traced(s: State) {
    forall t :: 0 <= t < |s.threads| ==> InOrder(s, t, s.threads[t])
  }

  /** Only existing threads have acted. */
  ghost predicate Signed(s: State) {
    && (forall k :: 0 <= k < |s.ops| ==> s.ops[k].t < |s.threads|)
    && (forall k :: 0 <= k < |s.out| ==> s.out[k].t < |s.threads|)
  }

  lemma SignedStep(n: nat, s: State, a: Action)
    requires Signed(s) && Enabled(s, a)
    ensures Signed(Apply(n, s, a))
  {
  }

  lemma {:induction false} Strangers(s: State, t: Tid)
    requires Signed(s) && t >= |s.threads|
    ensures PushedBy(s.ops, t) == PoppedBy(s.ops, t) == []
    ensures ProducedBy(s.out, t) == ConsumedBy(s.out, t) == []
    decreases |s.ops| + |s.out|
  {
    if s.ops != [] {
      Strangers(s.(ops := s.ops[..|s.ops| - 1]), t);
    }
    if s.out != [] {
      Strangers(s.(out := s.out[..|s.out| - 1]), t);
    }
  }

  lemma AppendOp(base: seq<int>, ops: seq<Op>, o: Op, t: Tid)
    ensures Replay(base, ops + [o]) ==
            match Replay(base, ops)
            case None => None
            case Some(st) =>
              match o
              case Push(_, v) => Some([v] + st)
              case Pop(_, v) => if st != [] && st[0] == v then Some(st[1..]) else None
    ensures PushedBy(ops + [o], t) == PushedBy(ops, t) + if o.Push? && o.t == t then [o.num] else []
    ensures PoppedBy(ops + [o], t) == PoppedBy(ops, t) + if o.Pop? && o.t == t then [o.num] else []
  {
    assert (ops + [o])[..|ops|] == ops;
  }

  lemma AppendLine(out: seq<Line>, o: Line, t: Tid)
    ensures ProducedBy(out + [o], t) == ProducedBy(out, t) + if o.Produce? && o.t == t then [o.num] else []
    ensures ConsumedBy(out + [o], t) == ConsumedBy(out, t) + if o.Consume? && o.t == t then [o.num] else []
  {
    assert (out + [o])[..|out|] == out;
  }

  lemma ContentFrame(heap: map<Addr, Cell>, heap': map<Addr, Cell>, chain: seq<Addr>)
    requires forall k :: 0 <= k < |chain| ==> NumAt(heap', chain[k]) == NumAt(heap, chain[k])
    ensures Values(heap', chain) == Values(heap, chain)
  {
  }

  /** A step of `t` keeps the value of every allocated node but the one it frees. */
  lemma NumFrame(n: nat, s: State, t: Tid, p: Option<Addr>)
    requires Enabled(s, Run(t))
    requires s.threads[t].pc.Free? ==> p != s.threads[t].mp
    ensures NumOf(RunStep(n, s, t).heap, p) == NumOf(s.heap, p)
  {
  }

  lemma ContentRun(n: nat, s: State, t: Tid)
    requires Chained(s) && Enabled(s, Run(t)) && DataOk(s.threads[t], s)
    requires !s.threads[t].pc.Publish? && !s.threads[t].pc.Advance?
    ensures Content(RunStep(n, s, t)) == Content(s)
  {
    forall k | 0 <= k < |s.chain|
      ensures NumAt(RunStep(n, s, t).heap, s.chain[k]) == NumAt(s.heap, s.chain[k])
    {
      NumFrame(n, s, t, Some(s.chain[k]));
    }
    ContentFrame(s.heap, RunStep(n, s, t).heap, s.chain);
  }

  lemma ContentQuiet(n: nat, s: State, a: Action)
    requires Chained(s) && Enabled(s, a) && !a.Run?
    ensures Content(Apply(n, s, a)) == Content(s) && Apply(n, s, a).ops == s.ops
  {
    ContentFrame(s.heap, Apply(n, s, a).heap, s.chain);
  }

  lemma ContentPublish(n: nat, s: State, t: Tid)
    requires Enabled(s, Run(t)) && DataOk(s.threads[t], s) && s.threads[t].pc.Publish?
    ensures Content(RunStep(n, s, t)) == [NumOf(s.heap, s.threads[t].mp)] + Content(s)
  {
  }

  lemma ContentAdvance(n: nat, s: State, t: Tid)
    requires Chained(s) && Enabled(s, Run(t)) && DataOk(s.threads[t], s) && s.threads[t].pc.Advance?
    ensures Content(s) == [NumOf(s.heap, s.threads[t].mp)] + Content(RunStep(n, s, t))
  {
  }

  lemma ContentStep(n: nat, s: State, a: Action)
    requires Chained(s) && Data(s) && Enabled(s, a)
    requires Replay([], s.ops) == Some(Content(s))
    ensures Replay([], Apply(n, s, a).ops) == Some(Content(Apply(n, s, a)))
  {
    if !a.Run? {
      ContentQuiet(n, s, a);
    } else {
      var th := s.threads[a.t];
      assert DataOk(th, s);
      RunEmits(n, s, a.t);
      if th.pc.Publish? {
        AppendOp([], s.ops, Push(a.t, NumOf(s.heap, th.mp)), a.t);
        ContentPublish(n, s, a.t);
      } else if th.pc.Advance? {
        AppendOp([], s.ops, Pop(a.t, NumOf(s.heap, th.mp)), a.t);
        ContentAdvance(n, s, a.t);
      } else {
        assert s.ops + [] == s.ops;
        ContentRun(n, s, a.t);
      }
    }
  }

  function OpsOf(s: State, t: Tid): seq<Op>
    requires t < |s.threads|
  {
    var th := s.threads[t];
    if th.pc.Publish? then [Push(t, NumOf(s.heap, th.mp))]
    else if th.pc.Advance? then [Pop(t, NumOf(s.heap, th.mp))]
    else []
  }

  function LinesOf(s: State, t: Tid): seq<Line>
    requires t < |s.threads|
  {
    if s.threads[t].pc.Free? then [Consume(t, NumOf(s.heap, s.threads[t].mp))] else []
  }

  lemma RunEmits(n: nat, s: State, t: Tid)
    requires Enabled(s, Run(t))
    ensures RunStep(n, s, t).ops == s.ops + OpsOf(s, t)
    ensures RunStep(n, s, t).out == s.out + LinesOf(s, t)
  {
  }

  /** How the projections of a trace on thread `u` grow in one step of `t`. */
  lemma OpsProjections(s: State, t: Tid, u: Tid)
    requires t < |s.threads|
    ensures var th, v := s.threads[t], [NumOf(s.heap, s.threads[t].mp)];
      && PushedBy(s.ops + OpsOf(s, t), u) == PushedBy(s.ops, u) + (if u == t && th.pc.Publish? then v else [])
      && PoppedBy(s.ops + OpsOf(s, t), u) == PoppedBy(s.ops, u) + (if u == t && th.pc.Advance? then v else [])
  {
    if OpsOf(s, t) == [] {
      assert s.ops + [] == s.ops;
    } else {
      AppendOp([], s.ops, OpsOf(s, t)[0], u);
    }
  }

  lemma LinesProjections(s: State, t: Tid, u: Tid)
    requires t < |s.threads|
    ensures var th, v := s.threads[t], [NumOf(s.heap, s.threads[t].mp)];
      && ConsumedBy(s.out + LinesOf(s, t), u) == ConsumedBy(s.out, u) + (if u == t && th.pc.Free? then v else [])
      && ProducedBy(s.out + LinesOf(s, t), u) == ProducedBy(s.out, u)
  {
    if LinesOf(s, t) == [] {
      assert s.out + [] == s.out;
    } else {
      AppendLine(s.out, LinesOf(s, t)[0], u);
    }
  }

  function If(b: bool, v: int): seq<int> {
    if b then [v] else []
  }

  /** The projections of a trace on thread `u` after one step of `t`. */
  lemma Projections(n: nat, s: State, t: Tid, u: Tid)
    requires Enabled(s, Run(t))
    ensures var s', th, v := RunStep(n, s, t), s.threads[t], NumOf(s.heap, s.threads[t].mp);
      && ProducedBy(s'.out, u) == ProducedBy(s.out, u)
      && PushedBy(s'.ops, u) == PushedBy(s.ops, u) + If(u == t && th.pc.Publish?, v)
      && PoppedBy(s'.ops, u) == PoppedBy(s.ops, u) + If(u == t && th.pc.Advance?, v)
      && ConsumedBy(s'.out, u) == ConsumedBy(s.out, u) + If(u == t && th.pc.Free?, v)
  {
    RunEmits(n, s, t);
    OpsProjections(s, t, u);
    LinesProjections(s, t, u);
  }

  lemma OrderedSelf(n: nat, s: State, t: Tid, pr: seq<int>, pu: seq<int>, po: seq<int>, co: seq<int>)
    requires t < |s.threads| && ControlOk(n, t, s.threads[t], s.lock) && DataOk(s.threads[t], s)
    requires Enabled(s, Run(t)) && Ordered(s, s.threads[t], pr, pu, po, co)
    ensures var s', th, v := RunStep(n, s, t), s.threads[t], NumOf(s.heap, s.threads[t].mp);
      Ordered(s', s'.threads[t], pr, pu + If(th.pc.Publish?, v), po + If(th.pc.Advance?, v), co + If(th.pc.Free?, v))
  {
    if !s.threads[t].pc.Free? {
      NumFrame(n, s, t, s.threads[t].mp);
    }
  }

  lemma OrderedFrame(s: State, s': State, th: Thread, pr: seq<int>, pu: seq<int>, po: seq<int>, co: seq<int>)
    requires Ordered(s, th, pr, pu, po, co)
    requires Holding(th.pc) ==> NumOf(s'.heap, th.mp) == NumOf(s.heap, th.mp)
    ensures Ordered(s', th, pr, pu, po, co)
  {
  }

  lemma InOrderRun(n: nat, s: State, t: Tid, u: Tid)
    requires t < |s.threads| && u < |s.threads| && Enabled(s, Run(t)) && InOrder(s, u, s.threads[u])
    requires ControlOk(n, t, s.threads[t], s.lock) && DataOk(s.threads[t], s)
    requires u != t && Holding(s.threads[t].pc) && Holding(s.threads[u].pc) ==> s.threads[t].mp != s.threads[u].mp
    ensures InOrder(RunStep(n, s, t), u, RunStep(n, s, t).threads[u])
  {
    var pr, pu, po, co := ProducedBy(s.out, u), PushedBy(s.ops, u), PoppedBy(s.ops, u), ConsumedBy(s.out, u);
    Projections(n, s, t, u);
    if u == t {
      OrderedSelf(n, s, t, pr, pu, po, co);
    } else {
      if Holding(s.threads[u].pc) { NumFrame(n, s, t, s.threads[u].mp); }
      OrderedFrame(s, RunStep(n, s, t), s.threads[u], pr, pu, po, co);
      assert pu + [] == pu && po + [] == po && co + [] == co;
    }
  }

  lemma OrderedAlloc(
      n: nat, s: State, a: Action, pr: seq<int>, pu: seq<int>, po: seq<int>, co: seq<int>)
    requires a.Alloc? && Enabled(s, a) && ControlOk(n, a.t, s.threads[a.t], s.lock)
    requires Ordered(s, s.threads[a.t], pr, pu, po, co)
    ensures Ordered(Apply(n, s, a), Apply(n, s, a).threads[a.t], pr + [a.num], pu, po, co)
  {
  }

  lemma InOrderAlloc(n: nat, s: State, a: Action, u: Tid)
    requires a.Alloc? && Enabled(s, a) && u < |s.threads|
    requires InOrder(s, u, s.threads[u]) && DataOk(s.threads[u], s) && ControlOk(n, u, s.threads[u], s.lock)
    ensures InOrder(Apply(n, s, a), u, Apply(n, s, a).threads[u])
  {
    var pr, pu, po, co := ProducedBy(s.out, u), PushedBy(s.ops, u), PoppedBy(s.ops, u), ConsumedBy(s.out, u);
    AppendLine(s.out, Produce(a.t, a.num), u);
    if u == a.t {
      OrderedAlloc(n, s, a, pr, pu, po, co);
    } else {
      assert pr + [] == pr && co + [] == co;
      OrderedFrame(s, Apply(n, s, a), s.threads[u], pr, pu, po, co);
    }
  }

  /** A wake-up, a signal or a spawn changes nobody's trace. */
  lemma InOrderWakeups(n: nat, s: State, a: Action, u: Tid)
    requires a.Notify? || a.Spurious? || a.Spawn?
    requires Enabled(s, a) && u < |s.threads|
    requires InOrder(s, u, s.threads[u]) && ControlOk(n, u, s.threads[u], s.lock)
    ensures InOrder(Apply(n, s, a), u, Apply(n, s, a).threads[u])
  {
    var th, th' := s.threads[u], Apply(n, s, a).threads[u];
    assert th' == th || th' == Wake(th) || (a.Notify? && u == a.t && th' == NextIteration(n, th));
    OrderedWakeups(n, s, Apply(n, s, a), th, th',
                   ProducedBy(s.out, u), PushedBy(s.ops, u), PoppedBy(s.ops, u), ConsumedBy(s.out, u));
  }

  lemma OrderedWakeups(
      n: nat, s: State, s': State, th: Thread, th': Thread,
      pr: seq<int>, pu: seq<int>, po: seq<int>, co: seq<int>)
    requires s'.heap == s.heap && Ordered(s, th, pr, pu, po, co)
    requires || th' == th || (th.pc.Asleep? && th' == Wake(th))
             || (th.pc.Signal? && th.role.Producer? && th' == NextIteration(n, th))
    ensures Ordered(s', th', pr, pu, po, co)
  {
  }

  lemma TracedRun(n: nat, s: State, t: Tid, u: Tid)
    requires Control(n, s) && Data(s) && Unshared(s.threads) && Traced(s)
    requires Enabled(s, Run(t)) && u < |s.threads|
    ensures InOrder(RunStep(n, s, t), u, RunStep(n, s, t).threads[u])
  {
    assert DataOk(s.threads[t], s) && ControlOk(n, t, s.threads[t], s.lock) && InOrder(s, u, s.threads[u]);
    InOrderRun(n, s, t, u);
  }

  lemma TracedQuiet(n: nat, s: State, a: Action, u: Tid)
    requires Control(n, s) && Data(s) && Traced(s) && Enabled(s, a) && !a.Run? && u < |s.threads|
    ensures InOrder(Apply(n, s, a), u, Apply(n, s, a).threads[u])
  {
    assert InOrder(s, u, s.threads[u]) && ControlOk(n, u, s.threads[u], s.lock) && DataOk(s.threads[u], s);
    if a.Alloc? { InOrderAlloc(n, s, a, u); } else { InOrderWakeups(n, s, a, u); }
  }

  lemma TracedNew(n: nat, s: State, a: Action)
    requires Signed(s) && a.Spawn?
    ensures InOrder(Apply(n, s, a), |s.threads|, Apply(n, s, a).threads[|s.threads|])
  {
    Strangers(s, |s.threads|);
  }

  lemma TracedAt(n: nat, s: State, a: Action, u: Tid)
    requires Control(n, s) && Data(s) && Unshared(s.threads) && Signed(s) && Traced(s)
    requires Enabled(s, a) && u < |Apply(n, s, a).threads|
    ensures InOrder(Apply(n, s, a), u, Apply(n, s, a).threads[u])
  {
    if u >= |s.threads| {
      TracedNew(n, s, a);
    } else if a.Run? {
      TracedRun(n, s, a.t, u);
    } else {
      TracedQuiet(n, s, a, u);
    }
  }

  lemma TracedStep(n: nat, s: State, a: Action)
    requires Control(n, s) && Data(s) && Unshared(s.threads) && Signed(s) && Traced(s)
    requires Enabled(s, a)
    ensures Traced(Apply(n, s, a))
  {
    forall u | 0 <= u < |Apply(n, s, a).threads|
      ensures InOrder(Apply(n, s, a), u, Apply(n, s, a).threads[u])
    {
      TracedAt(n, s, a, u);
    }
  }

  /**
   In every interleaving the operations are a legal LIFO history ending in the content of the
   chain, and every thread's output is its own operations in order: a producer has printed what
   it pushed plus the node in its hand, a consumer has printed what it popped but the node in its hand.
   */
  lemma {:induction false} Linearizable(n: nat, acts: seq<Action>, s: State)
    requires Exec(n, START, acts) == Some(s)
    ensures Replay([], s.ops) == Some(Content(s))
    ensures Signed(s) && Traced(s)
  {
    if acts != [] {
      var k := |acts| - 1;
      var m := Exec(n, START, acts[..k]).value;
      Linearizable(n, acts[..k], m);
      SafeExec(n, acts[..k], m);
      ContentStep(n, m, acts[k]);
      SignedStep(n, m, acts[k]);
      TracedStep(n, m, acts[k]);
    }
  }

  lemma {:induction false} OpsConcat(base: seq<int>, a: seq<Op>, b: seq<Op>, t: Tid)
    ensures PushedBy(a + b, t) == PushedBy(a, t) + PushedBy(b, t)
    ensures PoppedBy(a + b, t) == PoppedBy(a, t) + PoppedBy(b, t)
    ensures Replay(base, a + b) == match Replay(base, a) case None => None case Some(st) => Replay(st, b)
  {
    if b == [] {
      assert a + b == a;
    } else {
      var k := |b| - 1;
      assert (a + b)[..|a + b| - 1] == a + b[..k];
      OpsConcat(base, a, b[..k], t);
    }
  }

  // ----- Conservation: for every value, as many copies leave as enter -----

  function One(b: bool): nat {
    if b then 1 else 0
  }

  function Printed(v: int, out: seq<Line>): nat {
    if out == [] then 0 else
      var o := out[|out| - 1];
      Printed(v, out[..|out| - 1]) + One(o == Produce(o.t, v))
  }

  function Eaten(v: int, out: seq<Line>): nat {
    if out == [] then 0 else
      var o := out[|out| - 1];
      Eaten(v, out[..|out| - 1]) + One(o == Consume(o.t, v))
  }

  function Stacked(v: int, content: seq<int>): nat {
    if content == [] then 0 else One(content[0] == v) + Stacked(v, content[1..])
  }

  function InHand(v: int, heap: map<Addr, Cell>, th: Thread): nat {
    One(Holding(th.pc) && NumOf(heap, th.mp) == v)
  }

  function InHands(v: int, heap: map<Addr, Cell>, ths: seq<Thread>): nat {
    if ths == [] then 0 else InHand(v, heap, ths[0]) + InHands(v, heap, ths[1..])
  }

  /** Replacing thread `t`, while every other thread keeps the value in its hand. */
  lemma {:induction false} HandsUpdate(
      v: int, heap: map<Addr, Cell>, heap': map<Addr, Cell>, ths: seq<Thread>, ths': seq<Thread>, t: nat)
    requires t < |ths| == |ths'|
    requires forall u :: 0 <= u < |ths| && u != t ==> InHand(v, heap', ths'[u]) == InHand(v, heap, ths[u])
    ensures InHands(v, heap', ths') + InHand(v, heap, ths[t]) == InHands(v, heap, ths) + InHand(v, heap', ths'[t])
  {
    if t == 0 {
      HandsSame(v, heap, heap', ths[1..], ths'[1..]);
    } else {
      HandsUpdate(v, heap, heap', ths[1..], ths'[1..], t - 1);
    }
  }

  lemma {:induction false} HandsSame(
      v: int, heap: map<Addr, Cell>, heap': map<Addr, Cell>, ths: seq<Thread>, ths': seq<Thread>)
    requires |ths| <= |ths'|
    requires forall u :: 0 <= u < |ths| ==> InHand(v, heap', ths'[u]) == InHand(v, heap, ths[u])
    requires forall u :: |ths| <= u < |ths'| ==> InHand(v, heap', ths'[u]) == 0
    ensures InHands(v, heap', ths') == InHands(v, heap, ths)
    decreases |ths'|
  {
    if ths != [] {
      HandsSame(v, heap, heap', ths[1..], ths'[1..]);
    } else if ths' != [] {
      HandsSame(v, heap, heap', ths, ths'[1..]);
    }
  }

  /** Every printed product is consumed, on the stack, or in exactly one thread's hand. */
  ghost predicate Conserved(v: int, s: State) {
    Printed(v, s.out) == Eaten(v, s.out) + Stacked(v, Content(s)) + InHands(v, s.heap, s.threads)
  }

  lemma AppendTotals(v: int, out: seq<Line>, o: Line)
    ensures Printed(v, out + [o]) == Printed(v, out) + One(o == Produce(o.t, v))
    ensures Eaten(v, out + [o]) == Eaten(v, out) + One(o == Consume(o.t, v))
  {
    assert (out + [o])[..|out|] == out;
  }

  lemma HandsRun(v: int, n: nat, s: State, t: Tid)
    requires Enabled(s, Run(t)) && Unshared(s.threads)
    ensures var s' := RunStep(n, s, t);
      InHands(v, s'.heap, s'.threads) + InHand(v, s.heap, s.threads[t])
      == InHands(v, s.heap, s.threads) + InHand(v, s'.heap, s'.threads[t])
  {
    var s' := RunStep(n, s, t);
    assert |s'.threads| == |s.threads|;
    forall u | 0 <= u < |s.threads| && u != t
      ensures InHand(v, s'.heap, s'.threads[u]) == InHand(v, s.heap, s.threads[u])
    {
      if Holding(s.threads[u].pc) { NumFrame(n, s, t, s.threads[u].mp); }
    }
    HandsUpdate(v, s.heap, s'.heap, s.threads, s'.threads, t);
  }

  /** How one statement moves the node of `t` between stack, hand and output. */
  lemma RunMoves(v: int, n: nat, s: State, t: Tid)
    requires Chained(s) && Enabled(s, Run(t)) && DataOk(s.threads[t], s)
    ensures var s', th := RunStep(n, s, t), s.threads[t];
      var hit := One(NumOf(s.heap, th.mp) == v);
      && Stacked(v, Content(s')) + (if th.pc.Advance? then hit else 0)
         == Stacked(v, Content(s)) + (if th.pc.Publish? then hit else 0)
      && InHand(v, s.heap, th) + (if th.pc.Advance? then hit else 0)
         == InHand(v, s'.heap, s'.threads[t]) + (if th.pc.Publish? || th.pc.Free? then hit else 0)
  {
    var s', th := RunStep(n, s, t), s.threads[t];
    if th.pc.Publish? {
      ContentPublish(n, s, t);
    } else if th.pc.Advance? {
      ContentAdvance(n, s, t);
    } else {
      ContentRun(n, s, t);
      if !th.pc.Free? { NumFrame(n, s, t, th.mp); }
    }
  }

  lemma RunTotals(v: int, n: nat, s: State, t: Tid)
    requires Enabled(s, Run(t))
    ensures Printed(v, RunStep(n, s, t).out) == Printed(v, s.out)
    ensures Eaten(v, RunStep(n, s, t).out)
         == Eaten(v, s.out) + One(s.threads[t].pc.Free? && NumOf(s.heap, s.threads[t].mp) == v)
  {
    RunEmits(n, s, t);
    AppendTotals(v, s.out, Consume(t, NumOf(s.heap, s.threads[t].mp)));
  }

  lemma HandsAlloc(v: int, n: nat, s: State, a: Action)
    requires Data(s) && Enabled(s, a) && a.Alloc?
    ensures InHands(v, Apply(n, s, a).heap, Apply(n, s, a).threads) == InHands(v, s.heap, s.threads) + One(a.num == v)
  {
    var s' := Apply(n, s, a);
    forall u | 0 <= u < |s.threads| && u != a.t
      ensures InHand(v, s'.heap, s'.threads[u]) == InHand(v, s.heap, s.threads[u])
    {
      assert DataOk(s.threads[u], s);
    }
    HandsUpdate(v, s.heap, s'.heap, s.threads, s'.threads, a.t);
  }

  lemma AllocTotals(v: int, n: nat, s: State, a: Action)
    requires Chained(s) && Enabled(s, a) && a.Alloc?
    ensures var s' := Apply(n, s, a);
      && Printed(v, s'.out) == Printed(v, s.out) + One(a.num == v)
      && Eaten(v, s'.out) == Eaten(v, s.out)
      && Stacked(v, Content(s')) == Stacked(v, Content(s))
  {
    ContentQuiet(n, s, a);
    AppendTotals(v, s.out, Produce(a.t, a.num));
  }

  lemma ConservedRun(v: int, n: nat, s: State, t: Tid)
    requires Enabled(s, Run(t)) && DataOk(s.threads[t], s)
    requires Chained(s) && Unshared(s.threads) && Conserved(v, s)
    ensures Conserved(v, RunStep(n, s, t))
  {
    HandsRun(v, n, s, t);
    RunMoves(v, n, s, t);
    RunTotals(v, n, s, t);
  }

  lemma ConservedQuiet(v: int, n: nat, s: State, a: Action)
    requires Chained(s) && Data(s) && Enabled(s, a) && !a.Run? && Conserved(v, s)
    ensures Conserved(v, Apply(n, s, a))
  {
    if a.Alloc? {
      HandsAlloc(v, n, s, a);
      AllocTotals(v, n, s, a);
    } else {
      HandsSame(v, s.heap, s.heap, s.threads, Apply(n, s, a).threads);
    }
  }

  lemma ConservedStep(v: int, n: nat, s: State, a: Action)
    requires Chained(s) && Data(s) && Unshared(s.threads) && Enabled(s, a) && Conserved(v, s)
    ensures Conserved(v, Apply(n, s, a))
  {
    if a.Run? {
      assert DataOk(s.threads[a.t], s);
      ConservedRun(v, n, s, a.t);
    } else {
      ConservedQuiet(v, n, s, a);
    }
  }

  lemma {:induction false} Conservation(v: int, n: nat, acts: seq<Action>, s: State)
    requires Exec(n, START, acts) == Some(s)
    ensures Printed(v, s.out) == Eaten(v, s.out) + Stacked(v, Content(s)) + InHands(v, s.heap, s.threads)
  {
    if acts != [] {
      var k := |acts| - 1;
      var m := Exec(n, START, acts[..k]).value;
      Conservation(v, n, acts[..k], m);
      SafeExec(n, acts[..k], m);
      ConservedStep(v, n, m, acts[k]);
    }
  }
}
