/**
 The step system of the condition-variable producer/consumer over a shared linked stack.

 Any number of producer and consumer threads run their `n`-iteration loops.  One action is one
 atomic statement of one thread, so an action sequence is an interleaving.  Nodes live in `heap`,
 a map from addresses to cells: `malloc` may return any address that is not allocated, `free`
 removes it, and so addresses may be reused.

 `pthread_cond_wait` releases the lock and blocks in one step, a signal wakes at least one sleeper
 when there is one, and a sleeper may also wake on its own (POSIX.1-2017, System Interfaces,
 pthread_cond_wait and pthread_cond_signal).
 */
module ProdConsSteps {
  import opened Wrappers

  type Tid = nat
  type Addr = nat

  datatype Cell = Cell(next: Option<Addr>, num: int)

  datatype Role = Producer | Consumer

  /** The statement a thread executes next. */
  datatype Pc =
    | Malloc | PLock | Link | Publish | PUnlock | Signal              // producer
    | CLock | Test | Wait | Asleep | Woken | Take | Advance | CUnlock | Free  // consumer
    | Done

  /** `i` is the loop counter and `mp` the local node pointer (None before its first assignment). */
  datatype Thread = Thread(role: Role, pc: Pc, i: nat, mp: Option<Addr>)

  /** The printed lines, with the thread that printed them. */
  datatype Line = Produce(t: Tid, num: int) | Consume(t: Tid, num: int)

  /** Operations on the stack, recorded at the two assignments to `head`. */
  datatype Op = Push(t: Tid, num: int) | Pop(t: Tid, num: int)

  /** `chain` (the addresses linked from `head`) and `ops` are auxiliary: no step reads them. */
  datatype State = State(
    threads: seq<Thread>,
    lock: Option<Tid>,
    head: Option<Addr>,
    heap: map<Addr, Cell>,
    out: seq<Line>,
    chain: seq<Addr>,
    ops: seq<Op>)

  datatype Action =
    | Spawn(role: Role)                                              // pthread_create
    | Alloc(t: Tid, a: Addr, num: int, junk: Option<Addr>)           // malloc, rand and printf
    | Run(t: Tid)                                                    // any other statement
    | Notify(t: Tid, woken: set<Tid>)                                // pthread_cond_signal
    | Spurious(t: Tid)                                               // wake-up without a signal

  const START := State([], None, None, map[], [], [], [])

  function First(n: nat, role: Role, i: nat): Pc {
    if i >= n then Done else if role.Producer? then Malloc else CLock
  }

  /** Reading or writing through a pointer that is not allocated has no defined effect; the steps
      below leave the heap alone then, and `ProdConsSafety.NoInvalidAccess` shows it never happens. */
  function NextOf(heap: map<Addr, Cell>, p: Option<Addr>): Option<Addr> {
    if p.Some? && p.value in heap then heap[p.value].next else None
  }

  function NumOf(heap: map<Addr, Cell>, p: Option<Addr>): int {
    if p.Some? && p.value in heap then heap[p.value].num else 0
  }

  function SetNext(heap: map<Addr, Cell>, p: Option<Addr>, next: Option<Addr>): map<Addr, Cell> {
    if p.Some? && p.value in heap then heap[p.value := Cell(next, heap[p.value].num)] else heap
  }

  function Goto(s: State, t: Tid, pc: Pc): seq<Thread>
    requires t < |s.threads|
  {
    s.threads[t := s.threads[t].(pc := pc)]
  }

  /** End of the loop body of thread `t`: increment and test. */
  function NextIteration(n: nat, th: Thread): Thread {
    th.(i := th.i + 1, pc := First(n, th.role, th.i + 1))
  }

  function Wake(th: Thread): Thread {
    th.(pc := Woken)
  }

  function WakeAll(ths: seq<Thread>, woken: set<Tid>): (r: seq<Thread>)
    ensures |r| == |ths|
    ensures forall j :: 0 <= j < |ths| ==> r[j] == if j in woken then Wake(ths[j]) else ths[j]
  {
    seq(|ths|, j requires 0 <= j < |ths| => if j in woken then Wake(ths[j]) else ths[j])
  }

  predicate Sleeping(s: State, t: Tid) {
    t < |s.threads| && s.threads[t].pc == Asleep
  }

  predicate Enabled(s: State, a: Action) {
    match a
    case Spawn(_) => true
    case Alloc(t, addr, _, _) => t < |s.threads| && s.threads[t].pc == Malloc && addr !in s.heap
    case Run(t) =>
      && t < |s.threads|
      && (!s.threads[t].pc.Malloc? && !s.threads[t].pc.Signal? && !s.threads[t].pc.Asleep? && !s.threads[t].pc.Done?)
      && ((s.threads[t].pc.PLock? || s.threads[t].pc.CLock? || s.threads[t].pc.Woken?) ==> s.lock.None?)
    case Notify(t, woken) =>
      && t < |s.threads| && s.threads[t].pc == Signal
      && (forall j :: j in woken ==> Sleeping(s, j))
      && ((exists j :: 0 <= j < |s.threads| && Sleeping(s, j)) ==> woken != {})
    case Spurious(t) => Sleeping(s, t)
  }

  function RunStep(n: nat, s: State, t: Tid): State
    requires Enabled(s, Run(t))
  {
    var th := s.threads[t];
    match th.pc
    case PLock => s.(lock := Some(t), threads := Goto(s, t, Link))
    case Link => s.(heap := SetNext(s.heap, th.mp, s.head), threads := Goto(s, t, Publish))
    case Publish =>
      s.(head := th.mp, threads := Goto(s, t, PUnlock),
         chain := (if th.mp.Some? then [th.mp.value] else []) + s.chain,
         ops := s.ops + [Push(t, NumOf(s.heap, th.mp))])
    case PUnlock => s.(lock := None, threads := Goto(s, t, Signal))
    case CLock => s.(lock := Some(t), threads := Goto(s, t, Test))
    case Test => s.(threads := Goto(s, t, if s.head.None? then Wait else Take))
    case Wait => s.(lock := None, threads := Goto(s, t, Asleep))
    case Woken => s.(lock := Some(t), threads := Goto(s, t, Test))
    case Take => s.(threads := s.threads[t := th.(pc := Advance, mp := s.head)])
    case Advance =>
      s.(head := NextOf(s.heap, th.mp), threads := Goto(s, t, CUnlock),
         chain := if s.chain == [] then [] else s.chain[1..],
         ops := s.ops + [Pop(t, NumOf(s.heap, th.mp))])
    case CUnlock => s.(lock := None, threads := Goto(s, t, Free))
    case Free =>
      s.(out := s.out + [Consume(t, NumOf(s.heap, th.mp))],
         heap := if th.mp.Some? then s.heap - {th.mp.value} else s.heap,
         threads := s.threads[t := NextIteration(n, th)])
  }

  function Apply(n: nat, s: State, a: Action): State
    requires Enabled(s, a)
  {
    match a
    case Spawn(role) => s.(threads := s.threads + [Thread(role, First(n, role, 0), 0, None)])
    case Alloc(t, addr, num, junk) =>
      s.(heap := s.heap[addr := Cell(junk, num)], out := s.out + [Produce(t, num)],
         threads := s.threads[t := s.threads[t].(pc := PLock, mp := Some(addr))])
    case Run(t) => RunStep(n, s, t)
    case Notify(t, woken) =>
      s.(threads := WakeAll(s.threads, woken)[t := NextIteration(n, s.threads[t])])
    case Spurious(t) => s.(threads := s.threads[t := Wake(s.threads[t])])
  }

  /** The state after performing `acts` from `s`, or None when some action is not enabled. */
  function Exec(n: nat, s: State, acts: seq<Action>): Option<State> {
    if acts == [] then Some(s) else
      match Exec(n, s, acts[..|acts| - 1])
      case None => None
      case Some(m) => if Enabled(m, acts[|acts| - 1]) then Some(Apply(n, m, acts[|acts| - 1])) else None
  }

  lemma {:induction false} ExecConcat(n: nat, s: State, a: seq<Action>, b: seq<Action>, m: State)
    requires Exec(n, s, a) == Some(m)
    ensures Exec(n, s, a + b) == Exec(n, m, b)
  {
    if b == [] {
      assert a + b == a;
    } else {
      var k := |b| - 1;
      assert (a + b)[..|a + b| - 1] == a + b[..k];
      ExecConcat(n, s, a, b[..k], m);
    }
  }
}
