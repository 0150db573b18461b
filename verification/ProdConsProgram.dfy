/**
 The producer/consumer program: its globals and its threads' locals, updated in place by one method
 per statement, under an arbitrary scheduler.  Every statement keeps the invariant `Good`, is a step
 of `ProdConsSteps`, and says what it means for the stack, the lock and the nodes in the threads' hands.
 */
module ProdConsProgram {
  import opened Wrappers
  import opened ProdConsSteps
  import opened ProdConsSafety
  import opened ProdConsHistory
  import opened ProdConsInvariant

  class Program {
    const n: nat                      // iterations per thread, 5 in the source
    var threads: seq<Thread>
    var lock: Option<Tid>
    var head: Option<Addr>
    var heap: map<Addr, Cell>
    var out: seq<Line>
    ghost var chain: seq<Addr>
    ghost var ops: seq<Op>

    ghost function Now(): State
      reads this
    {
      State(threads, lock, head, heap, out, chain, ops)
    }

    /** Mutual exclusion, ownership, no lost wake-up, and a legal LIFO history, all at once. */
    ghost predicate Good()
      reads this
    {
      Sound(n, Now())
    }

    /** The numbers on the stack, top first. */
    ghost function Stack(): seq<int>
      reads this
    {
      Content(Now())
    }

    constructor (n: nat)
      ensures Good() && Now() == START && this.n == n
    {
      this.n := n;
      threads, lock, head, heap, out := [], None, None, map[], [];
      chain, ops := [], [];
      new;
      StartSound(n);
    }

    // ----- The assignments of each statement -----

    method GoTo(t: Tid, pc: Pc)
      requires t < |threads|
      modifies `threads
      ensures threads == Goto(old(Now()), t, pc)
    {
      threads := threads[t := threads[t].(pc := pc)];
    }

    method Iterate(t: Tid)
      requires t < |threads|
      modifies `threads
      ensures threads == old(threads)[t := NextIteration(n, old(threads)[t])]
    {
      var th := threads[t];
      var i := th.i + 1;
      var again := if th.role.Producer? then Malloc else CLock;
      threads := threads[t := th.(i := i, pc := if i < n then again else Done)];
    }

    method AddThread(role: Role)
      modifies `threads
      ensures Now() == Apply(n, old(Now()), Spawn(role))
    {
      threads := threads + [Thread(role, First(n, role, 0), 0, None)];
    }

    method NewNode(t: Tid, a: Addr, num: int, junk: Option<Addr>)
      requires Enabled(Now(), Alloc(t, a, num, junk))
      modifies `threads, `heap, `out
      ensures Now() == Apply(n, old(Now()), Alloc(t, a, num, junk))
    {
      heap := heap[a := Cell(junk, num)];
      out := out + [Produce(t, num)];
      threads := threads[t := threads[t].(pc := PLock, mp := Some(a))];
    }

    method TakeLock(t: Tid)
      requires Enabled(Now(), Run(t)) && (threads[t].pc.PLock? || threads[t].pc.CLock? || threads[t].pc.Woken?)
      modifies `threads, `lock
      ensures Now() == Apply(n, old(Now()), Run(t))
    {
      lock := Some(t);
      GoTo(t, if threads[t].pc.PLock? then Link else Test);
    }

    method GiveLock(t: Tid)
      requires Enabled(Now(), Run(t)) && (threads[t].pc.PUnlock? || threads[t].pc.CUnlock? || threads[t].pc.Wait?)
      modifies `threads, `lock
      ensures Now() == Apply(n, old(Now()), Run(t))
    {
      lock := None;
      GoTo(t, if threads[t].pc.PUnlock? then Signal else if threads[t].pc.CUnlock? then Free else Asleep);
    }

    method AssignNext(t: Tid)
      requires Enabled(Now(), Run(t)) && threads[t].pc.Link?
      modifies `threads, `heap
      ensures Now() == Apply(n, old(Now()), Run(t))
    {
      heap := SetNext(heap, threads[t].mp, head);
      GoTo(t, Publish);
    }

    method AssignHead(t: Tid)
      requires Enabled(Now(), Run(t)) && threads[t].pc.Publish?
      modifies `threads, `head, `chain, `ops
      ensures Now() == Apply(n, old(Now()), Run(t))
    {
      head := threads[t].mp;
      chain := (if head.Some? then [head.value] else []) + chain;
      ops := ops + [Push(t, NumOf(heap, head))];
      GoTo(t, PUnlock);
    }

    method Rouse(t: Tid, woken: set<Tid>)
      requires Enabled(Now(), Notify(t, woken))
      modifies `threads
      ensures Now() == Apply(n, old(Now()), Notify(t, woken))
    {
      threads := WakeAll(threads, woken);
      Iterate(t);
    }

    method Branch(t: Tid)
      requires Enabled(Now(), Run(t)) && threads[t].pc.Test?
      modifies `threads
      ensures Now() == Apply(n, old(Now()), Run(t))
    {
      GoTo(t, if head.None? then Pc.Wait else Take);
    }

    method AssignMp(t: Tid)
      requires Enabled(Now(), Run(t)) && threads[t].pc.Take?
      modifies `threads
      ensures Now() == Apply(n, old(Now()), Run(t))
    {
      threads := threads[t := threads[t].(pc := Advance, mp := head)];
    }

    method AssignHeadNext(t: Tid)
      requires Enabled(Now(), Run(t)) && threads[t].pc.Advance?
      modifies `threads, `head, `chain, `ops
      ensures Now() == Apply(n, old(Now()), Run(t))
    {
      var mp := threads[t].mp;
      head := NextOf(heap, mp);
      chain := if chain == [] then [] else chain[1..];
      ops := ops + [Pop(t, NumOf(heap, mp))];
      GoTo(t, CUnlock);
    }

    method PrintAndFree(t: Tid)
      requires Enabled(Now(), Run(t)) && threads[t].pc.Free?
      modifies `threads, `heap, `out
      ensures Now() == Apply(n, old(Now()), Run(t))
    {
      var mp := threads[t].mp;
      out := out + [Consume(t, NumOf(heap, mp))];
      if mp.Some? { heap := heap - {mp.value}; }
      Iterate(t);
    }

    // ----- The statements, under the invariant: each can be run whenever its thread has come to it -----

    method PthreadCreate(role: Role)
      requires Good()
      modifies `threads
      ensures Good() && Now() == Apply(n, old(Now()), Spawn(role)) && Stack() == old(Stack())
      ensures |threads| == |old(threads)| + 1 && PushedBy(ops, |old(threads)|) == PoppedBy(ops, |old(threads)|) == []
    {
      SoundStep(n, Now(), Spawn(role));
      SpawnMeans(n, Now(), role);
      AddThread(role);
    }

    /** mp = malloc(..); mp->num = rand(); printf: the node belongs to this thread alone. */
    method Make(t: Tid, a: Addr, num: int, junk: Option<Addr>)
      requires t < |threads| && threads[t].pc.Malloc? && a !in heap && Good()
      modifies `threads, `heap, `out
      ensures Good() && Now() == Apply(n, old(Now()), Alloc(t, a, num, junk)) && Stack() == old(Stack())
      ensures OnlyHolder(Now(), t, a)
      ensures ProducedBy(out, t) == old(ProducedBy(out, t)) + [num]
    {
      SoundStep(n, Now(), Alloc(t, a, num, junk));
      AllocMeans(n, Now(), Alloc(t, a, num, junk));
      NewNode(t, a, num, junk);
    }

    /** Afterwards no other thread is inside its critical section. */
    method PthreadMutexLock(t: Tid)
      requires t < |threads| && (threads[t].pc.PLock? || threads[t].pc.CLock? || threads[t].pc.Woken?)
      requires lock == None && Good()
      modifies `threads, `lock
      ensures Good() && Now() == Apply(n, old(Now()), Run(t)) && Stack() == old(Stack())
      ensures lock == Some(t) && OnlyInside(Now(), t)
    {
      SoundStep(n, Now(), Run(t));
      LockMeans(n, Now(), t);
      TakeLock(t);
    }

    /** Afterwards no thread is inside its critical section. */
    method PthreadMutexUnlock(t: Tid)
      requires t < |threads| && (threads[t].pc.PUnlock? || threads[t].pc.CUnlock?) && Good()
      modifies `threads, `lock
      ensures Good() && Now() == Apply(n, old(Now()), Run(t)) && Stack() == old(Stack())
      ensures NobodyInside(Now())
    {
      SoundStep(n, Now(), Run(t));
      UnlockMeans(n, Now(), t);
      GiveLock(t);
    }

    /** mp->next = head: the thread's own node now leads the list; no other node is touched. */
    method LinkNode(t: Tid)
      requires t < |threads| && threads[t].pc.Link? && Good()
      modifies `threads, `heap
      ensures Good() && Now() == Apply(n, old(Now()), Run(t)) && Stack() == old(Stack())
      ensures threads[t].mp.Some? && Linked(heap, threads[t].mp, [threads[t].mp.value] + chain)
      ensures forall b :: b in old(heap) && threads[t].mp != Some(b) ==> b in heap && heap[b] == old(heap)[b]
    {
      SoundStep(n, Now(), Run(t));
      LinkMeans(n, Now(), t);
      AssignNext(t);
    }

    /** head = mp: the thread's last printed number is pushed, and all it printed is now pushed. */
    method PublishNode(t: Tid)
      requires t < |threads| && threads[t].pc.Publish? && Good()
      modifies `threads, `head, `chain, `ops
      ensures Good() && Now() == Apply(n, old(Now()), Run(t))
      ensures ProducedBy(out, t) == PushedBy(ops, t) != []
      ensures Stack() == [Last(ProducedBy(out, t))] + old(Stack())
    {
      SoundStep(n, Now(), Run(t));
      PublishMeans(n, Now(), t);
      AssignHead(t);
    }

    /** Nobody falls asleep, and if somebody slept, somebody wakes. */
    method PthreadCondSignal(t: Tid, woken: set<Tid>)
      requires t < |threads| && threads[t].pc.Signal?
      requires forall u :: u in woken ==> Sleeping(Now(), u)
      requires (exists u :: Sleeping(Now(), u)) ==> woken != {}
      requires Good()
      modifies `threads
      ensures Good() && Now() == Apply(n, old(Now()), Notify(t, woken)) && Stack() == old(Stack())
      ensures (exists u :: Sleeping(old(Now()), u)) ==> exists u :: Sleeping(old(Now()), u) && !Sleeping(Now(), u)
      ensures forall u :: Sleeping(Now(), u) ==> Sleeping(old(Now()), u)
    {
      SoundStep(n, Now(), Notify(t, woken));
      NotifyMeans(n, Now(), Notify(t, woken));
      Rouse(t, woken);
    }

    /** while (head == NULL): wait exactly when the stack is empty. */
    method TestHead(t: Tid)
      requires t < |threads| && threads[t].pc.Test? && Good()
      modifies `threads
      ensures Good() && Now() == Apply(n, old(Now()), Run(t)) && Stack() == old(Stack())
      ensures threads[t].pc == if Stack() == [] then Pc.Wait else Take
    {
      SoundStep(n, Now(), Run(t));
      TestMeans(n, Now(), t);
      Branch(t);
    }

    /** Only on an empty stack; the thread sleeps and nobody is left inside. */
    method PthreadCondWait(t: Tid)
      requires t < |threads| && threads[t].pc.Wait? && Good()
      modifies `threads, `lock
      ensures Good() && Now() == Apply(n, old(Now()), Run(t)) && Stack() == old(Stack()) == []
      ensures Sleeping(Now(), t) && NobodyInside(Now())
    {
      SoundStep(n, Now(), Run(t));
      WaitMeans(n, Now(), t);
      GiveLock(t);
    }

    method WakeSpuriously(t: Tid)
      requires t < |threads| && threads[t].pc.Asleep? && Good()
      modifies `threads
      ensures Good() && Now() == Apply(n, old(Now()), Spurious(t)) && Stack() == old(Stack())
      ensures forall u :: Sleeping(Now(), u) <==> Sleeping(old(Now()), u) && u != t
    {
      SoundStep(n, Now(), Spurious(t));
      SpuriousMeans(n, Now(), t);
      GoTo(t, Woken);
    }

    /** mp = head: the top of the stack. */
    method TakeHead(t: Tid)
      requires t < |threads| && threads[t].pc.Take? && Good()
      modifies `threads
      ensures Good() && Now() == Apply(n, old(Now()), Run(t)) && Stack() == old(Stack())
      ensures chain != [] && threads[t].mp == Some(chain[0])
    {
      SoundStep(n, Now(), Run(t));
      TakeMeans(n, Now(), t);
      AssignMp(t);
    }

    /** head = mp->next: the top is popped, and its node belongs to this thread alone. */
    method AdvanceHead(t: Tid)
      requires t < |threads| && threads[t].pc.Advance? && Good()
      modifies `threads, `head, `chain, `ops
      ensures Good() && Now() == Apply(n, old(Now()), Run(t))
      ensures old(chain) != [] && OnlyHolder(Now(), t, old(chain)[0])
      ensures PoppedBy(ops, t) != [] && old(Stack()) == [Last(PoppedBy(ops, t))] + Stack()
    {
      SoundStep(n, Now(), Run(t));
      AdvanceMeans(n, Now(), t);
      HeldOnce(n, Apply(n, Now(), Run(t)), t, chain[0]);
      AssignHeadNext(t);
    }

    /** printf; free(mp): the node was in no other hand and not on the stack; all popped is now printed. */
    method FreeNode(t: Tid)
      requires t < |threads| && threads[t].pc.Free? && Good()
      modifies `threads, `heap, `out
      ensures Good() && Now() == Apply(n, old(Now()), Run(t)) && Stack() == old(Stack())
      ensures old(threads)[t].mp.Some? && OnlyHolder(old(Now()), t, old(threads)[t].mp.value)
      ensures heap.Keys == old(heap).Keys - {old(threads)[t].mp.value}
      ensures ConsumedBy(out, t) == PoppedBy(ops, t)
    {
      SoundStep(n, Now(), Run(t));
      FreeMeans(n, Now(), t);
      PrintAndFree(t);
    }

    method Statement(t: Tid)
      requires Good() && Enabled(Now(), Run(t))
      modifies this
      ensures Good() && Now() == Apply(n, old(Now()), Run(t))
    {
      match threads[t].pc
      case PLock | CLock | Woken => PthreadMutexLock(t);
      case PUnlock | CUnlock => PthreadMutexUnlock(t);
      case Link => LinkNode(t);
      case Publish => PublishNode(t);
      case Test => TestHead(t);
      case Wait => PthreadCondWait(t);
      case Take => TakeHead(t);
      case Advance => AdvanceHead(t);
      case Free => FreeNode(t);
    }

    /** Any action: the stack changes as a sequential one does under the operations the action records. */
    method Perform(a: Action)
      requires Good() && Enabled(Now(), a)
      modifies this
      ensures Good() && Now() == Apply(n, old(Now()), a)
      ensures old(ops) <= ops && Replay(old(Stack()), ops[|old(ops)|..]) == Some(Stack())
    {
      ReplayStep(n, Now(), a);
      match a
      case Spawn(role) => PthreadCreate(role);
      case Alloc(t, x, num, junk) => Make(t, x, num, junk);
      case Run(t) => Statement(t);
      case Notify(t, woken) => PthreadCondSignal(t, woken);
      case Spurious(t) => WakeSpuriously(t);
    }

    /** Run the program under the scheduler that chooses `acts`; every theorem about runs applies to it. */
    method Interleave(acts: seq<Action>)
      requires Good() && Now() == START && Exec(n, START, acts).Some?
      modifies this
      ensures Good() && Exec(n, START, acts) == Some(Now())
    {
      var k := 0;
      while k < |acts|
        invariant 0 <= k <= |acts| && Good() && Exec(n, START, acts[..k]) == Some(Now())
      {
        ExecPrefix(n, acts, k + 1);
        assert acts[..k + 1][..k] == acts[..k];
        Perform(acts[k]);
        k := k + 1;
      }
      assert acts[..k] == acts;
    }
  }

  lemma {:induction false} ExecPrefix(n: nat, acts: seq<Action>, k: nat)
    requires k <= |acts| && Exec(n, START, acts).Some?
    ensures Exec(n, START, acts[..k]).Some?
  {
    if k == |acts| {
      assert acts[..k] == acts;
    } else {
      assert acts[..|acts| - 1][..k] == acts[..k];
      ExecPrefix(n, acts[..|acts| - 1], k);
    }
  }
}
