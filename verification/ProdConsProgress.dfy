/**
 Progress of the producer/consumer protocol: the wake-up invariant, a bound on the length of
 every run, and exactly when a run can only end with every thread finished.
 */
module ProdConsProgress {
  import opened Wrappers
  import opened ProdConsSteps
  import opened ProdConsSafety

  /** Quantities that are summed over the threads. */
  datatype Weight =
    | Producers | Consumers
    | Pushed | Popped     // nodes the thread has put on, or taken off, the stack
    | Helpers             // the thread will signal, or look at the stack, before it ends its iteration
    | Signals             // signals the thread has still to send
    | Effort              // statements the thread has still to execute if it is never woken again

  function Distance(pc: Pc): nat {
    match pc
    case CLock | Woken => 8
    case Test => 7
    case Malloc | Wait => 6
    case PLock | Asleep => 5
    case Link | Take => 4
    case Publish | Advance => 3
    case PUnlock | CUnlock => 2
    case Signal | Free => 1
    case Done => 0
  }

  predicate Unpopped(pc: Pc) {
    pc.CLock? || pc.Test? || pc.Wait? || pc.Woken? || pc.Take? || pc.Advance?
  }

  function Of(w: Weight, n: nat, th: Thread): nat {
    match w
    case Producers => if th.role.Producer? then 1 else 0
    case Consumers => if th.role.Consumer? then 1 else 0
    case Pushed => if th.role.Consumer? then 0 else th.i + if th.pc.PUnlock? || th.pc.Signal? then 1 else 0
    case Popped => if th.role.Producer? then 0 else th.i + if th.pc.CUnlock? || th.pc.Free? then 1 else 0
    case Helpers => if th.pc.PUnlock? || th.pc.Signal? || Unpopped(th.pc) then 1 else 0
    case Signals => if th.role.Producer? && th.i <= n then n - th.i else 0
    case Effort => if th.i <= n && !th.pc.Done? then 10 * (n - th.i) + Distance(th.pc) else 0
  }

  function Sum(w: Weight, n: nat, ths: seq<Thread>): nat {
    if ths == [] then 0 else Of(w, n, ths[0]) + Sum(w, n, ths[1..])
  }

  lemma {:induction false} SumUpdate(w: Weight, n: nat, ths: seq<Thread>, t: nat, th: Thread)
    requires t < |ths|
    ensures Sum(w, n, ths[t := th]) == Sum(w, n, ths) - Of(w, n, ths[t]) + Of(w, n, th)
    ensures Of(w, n, ths[t]) <= Sum(w, n, ths)
  {
    if t == 0 {
      assert ths[0 := th][1..] == ths[1..];
    } else {
      assert ths[t := th][1..] == ths[1..][t - 1 := th];
      SumUpdate(w, n, ths[1..], t - 1, th);
    }
  }

  lemma {:induction false} SumAppend(w: Weight, n: nat, ths: seq<Thread>, th: Thread)
    ensures Sum(w, n, ths + [th]) == Sum(w, n, ths) + Of(w, n, th)
  {
    if ths == [] {
      assert ths + [th] == [th];
    } else {
      assert (ths + [th])[1..] == ths[1..] + [th];
      SumAppend(w, n, ths[1..], th);
    }
  }

  lemma {:induction false} SumMono(w: Weight, n: nat, a: seq<Thread>, b: seq<Thread>)
    requires |a| == |b|
    requires forall j :: 0 <= j < |a| ==> Of(w, n, a[j]) <= Of(w, n, b[j])
    ensures Sum(w, n, a) <= Sum(w, n, b)
  {
    if a != [] {
      SumMono(w, n, a[1..], b[1..]);
    }
  }

  // ----- The wake-up invariant -----

  ghost predicate SomeAsleep(s: State) {
    exists t :: 0 <= t < |s.threads| && Sleeping(s, t)
  }

  /** Every stacked node is matched by a thread that will still signal or look at the stack. */
  ghost predicate NoLostWakeup(n: nat, s: State) {
    SomeAsleep(s) ==> |s.chain| <= Sum(Helpers, n, s.threads)
  }

  /** The nodes on the stack are those pushed and not popped. */
  ghost predicate Balanced(n: nat, s: State) {
    |s.chain| + Sum(Popped, n, s.threads) == Sum(Pushed, n, s.threads)
  }

  function Stepped(n: nat, s: State, t: Tid): Thread
    requires Enabled(s, Run(t))
  {
    RunStep(n, s, t).threads[t]
  }

  /** A statement other than a signal changes its own thread only. */
  lemma SumRun(w: Weight, n: nat, s: State, t: Tid)
    requires Enabled(s, Run(t))
    ensures Sum(w, n, RunStep(n, s, t).threads)
         == Sum(w, n, s.threads) - Of(w, n, s.threads[t]) + Of(w, n, Stepped(n, s, t))
    ensures Of(w, n, s.threads[t]) <= Sum(w, n, s.threads)
  {
    assert RunStep(n, s, t).threads == s.threads[t := Stepped(n, s, t)];
    SumUpdate(w, n, s.threads, t, Stepped(n, s, t));
  }

  lemma SumWake(w: Weight, n: nat, ths: seq<Thread>, woken: set<Tid>)
    requires w.Pushed? || w.Popped? || w.Signals?
    requires forall j :: j in woken ==> j < |ths| && ths[j].pc.Asleep?
    ensures Sum(w, n, WakeAll(ths, woken)) == Sum(w, n, ths)
  {
    SumMono(w, n, ths, WakeAll(ths, woken));
    SumMono(w, n, WakeAll(ths, woken), ths);
  }

  lemma SumNotify(w: Weight, n: nat, s: State, a: Action)
    requires a.Notify? && Enabled(s, a) && (w.Pushed? || w.Popped? || w.Signals?)
    ensures Sum(w, n, Apply(n, s, a).threads)
         == Sum(w, n, s.threads) - Of(w, n, s.threads[a.t]) + Of(w, n, NextIteration(n, s.threads[a.t]))
    ensures Of(w, n, s.threads[a.t]) <= Sum(w, n, s.threads)
  {
    assert forall j :: j in a.woken ==> Sleeping(s, j);
    SumWake(w, n, s.threads, a.woken);
    SumUpdate(w, n, WakeAll(s.threads, a.woken), a.t, NextIteration(n, s.threads[a.t]));
  }

  lemma BalancedRun(n: nat, s: State, t: Tid)
    requires Enabled(s, Run(t)) && ControlOk(n, t, s.threads[t], s.lock) && DataOk(s.threads[t], s)
    requires Balanced(n, s)
    ensures Balanced(n, RunStep(n, s, t))
  {
    SumRun(Pushed, n, s, t);
    SumRun(Popped, n, s, t);
  }

  lemma BalancedNotify(n: nat, s: State, a: Action)
    requires a.Notify? && Enabled(s, a) && ControlOk(n, a.t, s.threads[a.t], s.lock) && Balanced(n, s)
    ensures Balanced(n, Apply(n, s, a))
  {
    SumNotify(Pushed, n, s, a);
    SumNotify(Popped, n, s, a);
  }

  lemma BalancedSpawn(n: nat, s: State, role: Role)
    requires Balanced(n, s)
    ensures Balanced(n, Apply(n, s, Spawn(role)))
  {
    var th := Apply(n, s, Spawn(role)).threads[|s.threads|];
    SumAppend(Pushed, n, s.threads, th);
    SumAppend(Popped, n, s.threads, th);
  }

  lemma BalancedOwn(n: nat, s: State, a: Action)
    requires (a.Alloc? || a.Spurious?) && Enabled(s, a) && ControlOk(n, a.t, s.threads[a.t], s.lock) && Balanced(n, s)
    ensures Balanced(n, Apply(n, s, a))
  {
    SumUpdate(Pushed, n, s.threads, a.t, Apply(n, s, a).threads[a.t]);
    SumUpdate(Popped, n, s.threads, a.t, Apply(n, s, a).threads[a.t]);
  }

  lemma BalancedStep(n: nat, s: State, a: Action)
    requires Control(n, s) && Data(s) && Enabled(s, a) && Balanced(n, s)
    ensures Balanced(n, Apply(n, s, a))
  {
    if a.Spawn? {
      BalancedSpawn(n, s, a.role);
    } else {
      assert ControlOk(n, a.t, s.threads[a.t], s.lock) && DataOk(s.threads[a.t], s);
      if a.Run? { BalancedRun(n, s, a.t); }
      else if a.Notify? { BalancedNotify(n, s, a); }
      else { BalancedOwn(n, s, a); }
    }
  }

  /** The statements between two signals can only add a helper, or use one up with a node. */
  lemma NoLostWakeupRun(n: nat, s: State, t: Tid)
    requires Enabled(s, Run(t)) && ControlOk(n, t, s.threads[t], s.lock) && DataOk(s.threads[t], s)
    requires NoLostWakeup(n, s)
    ensures NoLostWakeup(n, RunStep(n, s, t))
  {
    SumRun(Helpers, n, s, t);
    if SomeAsleep(RunStep(n, s, t)) && !s.threads[t].pc.Wait? {
      var u :| 0 <= u < |s.threads| && Sleeping(RunStep(n, s, t), u);
      assert u != t && Sleeping(s, u);
    }
  }

  lemma StillAsleep(n: nat, s: State, a: Action)
    requires Enabled(s, a) && !a.Run?
    ensures SomeAsleep(Apply(n, s, a)) ==> SomeAsleep(s)
  {
    if SomeAsleep(Apply(n, s, a)) {
      var u :| 0 <= u < |Apply(n, s, a).threads| && Sleeping(Apply(n, s, a), u);
      assert Sleeping(s, u);
    }
  }

  /** A signal sent while somebody sleeps replaces the signaller by a woken helper. */
  lemma NoLostWakeupNotify(n: nat, s: State, a: Action)
    requires a.Notify? && Enabled(s, a) && NoLostWakeup(n, s)
    ensures NoLostWakeup(n, Apply(n, s, a))
  {
    if SomeAsleep(Apply(n, s, a)) {
      StillAsleep(n, s, a);
      var j :| j in a.woken;
      assert Sleeping(s, j);
      WokenHelps(n, s.threads, a.woken, j);
      SumUpdate(Helpers, n, WakeAll(s.threads, a.woken), a.t, NextIteration(n, s.threads[a.t]));
    }
  }

  lemma WokenHelps(n: nat, ths: seq<Thread>, woken: set<Tid>, j: Tid)
    requires j in woken && j < |ths| && ths[j].pc.Asleep?
    ensures Sum(Helpers, n, WakeAll(ths, woken)) >= Sum(Helpers, n, ths) + 1
  {
    SumUpdate(Helpers, n, ths, j, Wake(ths[j]));
    SumMono(Helpers, n, ths[j := Wake(ths[j])], WakeAll(ths, woken));
  }

  lemma NoLostWakeupStep(n: nat, s: State, a: Action)
    requires Control(n, s) && Data(s) && Enabled(s, a) && NoLostWakeup(n, s)
    ensures NoLostWakeup(n, Apply(n, s, a))
  {
    var s' := Apply(n, s, a);
    match a
    case Run(t) =>
      assert ControlOk(n, t, s.threads[t], s.lock) && DataOk(s.threads[t], s);
      NoLostWakeupRun(n, s, t);
    case Notify(_, _) => NoLostWakeupNotify(n, s, a);
    case Spawn(_) =>
      SumAppend(Helpers, n, s.threads, s'.threads[|s.threads|]);
      StillAsleep(n, s, a);
    case Alloc(t, _, _, _) =>
      SumUpdate(Helpers, n, s.threads, t, s'.threads[t]);
      StillAsleep(n, s, a);
    case Spurious(t) =>
      SumUpdate(Helpers, n, s.threads, t, s'.threads[t]);
      StillAsleep(n, s, a);
  }

  ghost predicate Live(n: nat, s: State) {
    Safe(n, s) && Balanced(n, s) && NoLostWakeup(n, s)
  }

  lemma LiveStep(n: nat, s: State, a: Action)
    requires Live(n, s) && Enabled(s, a)
    ensures Live(n, Apply(n, s, a))
  {
    SafeStep(n, s, a);
    BalancedStep(n, s, a);
    NoLostWakeupStep(n, s, a);
  }

  lemma {:induction false} LiveExec(n: nat, s: State, acts: seq<Action>, s': State)
    requires Live(n, s) && Exec(n, s, acts) == Some(s')
    ensures Live(n, s')
  {
    if acts != [] {
      var k := |acts| - 1;
      var m := Exec(n, s, acts[..k]).value;
      LiveExec(n, s, acts[..k], m);
      LiveStep(n, m, acts[k]);
    }
  }

  /**
   No wake-up is lost: while a consumer sleeps, the stacked nodes are at most the producers between
   push and signal plus the consumers that are awake and have still to pop.  So a node on the stack
   and a sleeper imply a thread that is neither asleep nor finished.
   */
  lemma NoWakeupIsLost(n: nat, acts: seq<Action>, s: State)
    requires Exec(n, START, acts) == Some(s) && SomeAsleep(s)
    ensures |s.chain| <= Sum(Helpers, n, s.threads)
    ensures s.head.Some? ==> exists t :: 0 <= t < |s.threads| && Of(Helpers, n, s.threads[t]) == 1
  {
    LiveExec(n, START, acts, s);
    if forall t :: 0 <= t < |s.threads| ==> Of(Helpers, n, s.threads[t]) == 0 {
      SumZero(Helpers, n, s.threads);
    }
  }

  lemma {:induction false} SumZero(w: Weight, n: nat, ths: seq<Thread>)
    requires forall t :: 0 <= t < |ths| ==> Of(w, n, ths[t]) == 0
    ensures Sum(w, n, ths) == 0
  {
    if ths != [] {
      SumZero(w, n, ths[1..]);
    }
  }

  // ----- Termination -----

  function Cap(n: nat, k: nat): nat {
    if k == 0 then 0 else Cap(n, k - 1) + 10 * n + 10
  }

  /** Signals first: between two signals the remaining effort only shrinks. */
  function Measure(n: nat, s: State): nat {
    Sum(Signals, n, s.threads) * (Cap(n, |s.threads|) + 1) + Sum(Effort, n, s.threads)
  }

  lemma {:induction false} EffortCap(n: nat, ths: seq<Thread>)
    ensures Sum(Effort, n, ths) <= Cap(n, |ths|)
  {
    if ths != [] {
      EffortCap(n, ths[1..]);
    }
  }

  predicate Proper(a: Action) {
    !a.Spurious? && !a.Spawn?
  }

  lemma MeasureRun(n: nat, s: State, t: Tid)
    requires Enabled(s, Run(t)) && ControlOk(n, t, s.threads[t], s.lock)
    ensures Measure(n, RunStep(n, s, t)) < Measure(n, s)
  {
    SumRun(Signals, n, s, t);
    SumRun(Effort, n, s, t);
  }

  lemma MeasureNotify(n: nat, s: State, a: Action)
    requires a.Notify? && Enabled(s, a) && ControlOk(n, a.t, s.threads[a.t], s.lock)
    ensures Measure(n, Apply(n, s, a)) < Measure(n, s)
  {
    var s' := Apply(n, s, a);
    SumNotify(Signals, n, s, a);
    EffortCap(n, s'.threads);
    Lexicographic(Sum(Signals, n, s'.threads), Cap(n, |s.threads|) + 1, Sum(Effort, n, s'.threads));
  }

  lemma Lexicographic(x: nat, c: nat, r: nat)
    requires r < c
    ensures x * c + r < (x + 1) * c
  {
    assert (x + 1) * c == x * c + c;
  }

  lemma MeasureOwn(n: nat, s: State, a: Action)
    requires (a.Alloc? || a.Spurious?) && Enabled(s, a) && ControlOk(n, a.t, s.threads[a.t], s.lock)
    ensures Measure(n, Apply(n, s, a)) + 1 <= Measure(n, s) + if a.Spurious? then 4 else 0
  {
    SumUpdate(Signals, n, s.threads, a.t, Apply(n, s, a).threads[a.t]);
    SumUpdate(Effort, n, s.threads, a.t, Apply(n, s, a).threads[a.t]);
  }

  lemma MeasureStep(n: nat, s: State, a: Action)
    requires Control(n, s) && Enabled(s, a) && !a.Spawn?
    ensures Measure(n, Apply(n, s, a)) + 1 <= Measure(n, s) + if a.Spurious? then 4 else 0
  {
    assert ControlOk(n, a.t, s.threads[a.t], s.lock);
    match a
    case Run(t) => MeasureRun(n, s, t);
    case Notify(_, _) => MeasureNotify(n, s, a);
    case Alloc(t, _, _, _) => MeasureOwn(n, s, a);
    case Spurious(t) => MeasureOwn(n, s, a);
  }

  function SpuriousIn(acts: seq<Action>): nat {
    if acts == [] then 0 else
      SpuriousIn(acts[..|acts| - 1]) + if acts[|acts| - 1].Spurious? then 1 else 0
  }

  ghost predicate NoSpawn(acts: seq<Action>) {
    forall k :: 0 <= k < |acts| ==> !acts[k].Spawn?
  }

  /** Once all threads exist, a run is at most as long as the measure plus four steps per spurious wake-up. */
  lemma {:induction false} RunsAreBounded(n: nat, s: State, acts: seq<Action>, s': State)
    requires Live(n, s) && Exec(n, s, acts) == Some(s') && NoSpawn(acts)
    ensures |acts| + Measure(n, s') <= Measure(n, s) + 4 * SpuriousIn(acts)
  {
    if acts != [] {
      var k := |acts| - 1;
      var m := Exec(n, s, acts[..k]).value;
      RunsAreBounded(n, s, acts[..k], m);
      LiveExec(n, s, acts[..k], m);
      MeasureStep(n, m, acts[k]);
    }
  }

  // ----- Where runs end -----

  ghost predicate Stuck(s: State) {
    forall a :: Proper(a) ==> !Enabled(s, a)
  }

  ghost predicate AllDone(s: State) {
    forall t :: 0 <= t < |s.threads| ==> s.threads[t].pc.Done?
  }

  lemma {:induction false} FreshAddr(used: set<Addr>) returns (a: Addr)
    ensures forall b :: b in used ==> b < a
  {
    if used == {} {
      a := 0;
    } else {
      var b :| b in used;
      var c := FreshAddr(used - {b});
      a := if b < c then c else b + 1;
      forall x | x in used
        ensures x < a
      {
        assert x == b || x in used - {b};
      }
    }
  }

  /** A thread that is neither finished nor asleep can move, unless another one holds the lock. */
  lemma CanMove(n: nat, s: State, t: Tid) returns (a: Action)
    requires t < |s.threads| && !s.threads[t].pc.Done? && !s.threads[t].pc.Asleep?
    requires s.lock.None? || s.lock == Some(t)
    requires ControlOk(n, t, s.threads[t], s.lock)
    ensures Proper(a) && Enabled(s, a) && a.t == t
  {
    match s.threads[t].pc
    case Malloc =>
      var x := FreshAddr(s.heap.Keys);
      a := Alloc(t, x, 0, None);
    case Signal =>
      a := Notify(t, set u | 0 <= u < |s.threads| && Sleeping(s, u));
      assert forall u :: 0 <= u < |s.threads| && Sleeping(s, u) ==> u in a.woken;
    case _ => a := Run(t);
  }

  lemma StuckShape(n: nat, s: State, t: Tid)
    requires Control(n, s) && Stuck(s) && t < |s.threads|
    ensures s.threads[t].pc.Done? || s.threads[t].pc.Asleep?
  {
    if s.lock.Some? {
      assert ControlOk(n, s.lock.value, s.threads[s.lock.value], s.lock);
      var a := CanMove(n, s, s.lock.value);
    } else if !s.threads[t].pc.Done? && !s.threads[t].pc.Asleep? {
      assert ControlOk(n, t, s.threads[t], s.lock);
      var a := CanMove(n, s, t);
    }
  }

  /** A finished or sleeping thread. */
  predicate AtRest(n: nat, th: Thread) {
    if th.pc.Done? then th.i == n else th.pc.Asleep? && th.role.Consumer? && th.i < n
  }

  lemma {:induction false} PushedAtRest(n: nat, ths: seq<Thread>)
    requires forall t :: 0 <= t < |ths| ==> AtRest(n, ths[t])
    ensures Sum(Pushed, n, ths) == n * Sum(Producers, n, ths)
  {
    if ths != [] {
      PushedAtRest(n, ths[1..]);
      var p := Sum(Producers, n, ths[1..]);
      assert n * (p + 1) == n * p + n;
      assert AtRest(n, ths[0]);
    }
  }

  lemma {:induction false} PoppedAtRest(n: nat, ths: seq<Thread>)
    requires forall t :: 0 <= t < |ths| ==> AtRest(n, ths[t])
    ensures Sum(Popped, n, ths) <= n * Sum(Consumers, n, ths)
    ensures (forall t :: 0 <= t < |ths| ==> ths[t].pc.Done?) ==> Sum(Popped, n, ths) == n * Sum(Consumers, n, ths)
    ensures forall t :: 0 <= t < |ths| && ths[t].pc.Asleep? ==> Sum(Popped, n, ths) < n * Sum(Consumers, n, ths)
  {
    if ths != [] {
      PoppedAtRest(n, ths[1..]);
      var c := Sum(Consumers, n, ths[1..]);
      assert n * (c + 1) == n * c + n;
      assert AtRest(n, ths[0]);
      assert forall t :: 1 <= t < |ths| ==> ths[t] == ths[1..][t - 1];
    }
  }

  lemma StuckOutcome(n: nat, s: State)
    requires Live(n, s) && Stuck(s)
    ensures AllDone(s) <==> n == 0 || Sum(Producers, n, s.threads) >= Sum(Consumers, n, s.threads)
    ensures AllDone(s) ==> |s.chain| == n * Sum(Producers, n, s.threads) - n * Sum(Consumers, n, s.threads)
    ensures !AllDone(s) ==>
              s.chain == [] && SomeAsleep(s) && Sum(Popped, n, s.threads) == n * Sum(Producers, n, s.threads)
  {
    var p, c := Sum(Producers, n, s.threads), Sum(Consumers, n, s.threads);
    AllAtRest(n, s);
    PushedAtRest(n, s.threads);
    PoppedAtRest(n, s.threads);
    Products(n, p, c);
    if !AllDone(s) {
      var t :| 0 <= t < |s.threads| && !s.threads[t].pc.Done?;
      assert AtRest(n, s.threads[t]) && Sleeping(s, t);
    }
  }

  /**
   Where every run ends.  A reachable state in which nothing but a spurious wake-up can happen has all
   threads finished exactly when there are at least as many producers as consumers (or no items at
   all); the stack then holds the surplus.  Otherwise the stack is empty, all produced items have been
   taken, and some consumer sleeps for ever.
   */
  lemma Outcome(n: nat, acts: seq<Action>, s: State)
    requires Exec(n, START, acts) == Some(s) && Stuck(s)
    ensures var p, c := Sum(Producers, n, s.threads), Sum(Consumers, n, s.threads);
      && (AllDone(s) <==> n == 0 || p >= c)
      && (AllDone(s) ==> |s.chain| == n * p - n * c)
      && (!AllDone(s) ==> s.chain == [] && SomeAsleep(s) && Sum(Popped, n, s.threads) == n * p)
  {
    LiveExec(n, START, acts, s);
    StuckOutcome(n, s);
  }

  lemma AllAtRest(n: nat, s: State)
    requires Control(n, s) && Stuck(s)
    ensures forall t :: 0 <= t < |s.threads| ==> AtRest(n, s.threads[t])
    ensures Sum(Helpers, n, s.threads) == 0
  {
    forall t | 0 <= t < |s.threads|
      ensures AtRest(n, s.threads[t]) && Of(Helpers, n, s.threads[t]) == 0
    {
      StuckShape(n, s, t);
      assert ControlOk(n, t, s.threads[t], s.lock);
    }
    SumZero(Helpers, n, s.threads);
  }

  lemma Products(n: nat, p: nat, c: nat)
    ensures n * p >= n * c <==> n == 0 || p >= c
  {
    if p >= c {
      assert n * p == n * c + n * (p - c);
    } else {
      assert n * c == n * p + n * (c - p);
      assert n > 0 ==> n * (c - p) > 0;
    }
  }

  /** Without spurious wake-ups every run can be continued, and by its bound must end, in such a state. */
  lemma {:induction false} Finish(n: nat, s: State) returns (acts: seq<Action>, s': State)
    requires Live(n, s)
    ensures Exec(n, s, acts) == Some(s') && Live(n, s') && Stuck(s')
    ensures forall k :: 0 <= k < |acts| ==> Proper(acts[k])
    decreases Measure(n, s)
  {
    if Stuck(s) {
      acts, s' := [], s;
    } else {
      var a :| Proper(a) && Enabled(s, a);
      Progresses(n, s, a);
      var rest;
      rest, s' := Finish(n, Apply(n, s, a));
      acts := [a] + rest;
      ExecFirst(n, s, a, rest);
    }
  }

  lemma Progresses(n: nat, s: State, a: Action)
    requires Live(n, s) && Proper(a) && Enabled(s, a)
    ensures Live(n, Apply(n, s, a)) && Measure(n, Apply(n, s, a)) < Measure(n, s)
  {
    LiveStep(n, s, a);
    MeasureStep(n, s, a);
  }

  lemma ExecFirst(n: nat, s: State, a: Action, rest: seq<Action>)
    requires Enabled(s, a)
    ensures Exec(n, s, [a] + rest) == Exec(n, Apply(n, s, a), rest)
  {
    assert [a][..0] == [];
    ExecConcat(n, s, [a], rest, Apply(n, s, a));
  }
}
